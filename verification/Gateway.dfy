/** The gateway as one state machine: administrators edit, probes fetch and push, the process restarts. */
module Gateway {
  import opened Wire
  import opened Order
  import C = Catalog
  import TS = TargetStore
  import S = Settings
  import B = Buckets
  import A = AuthThrottle
  import V = Validation
  import L = Latest
  import Scrape
  import Identity
  import Migration
  import Import
  import Text

  /** Known types and valid IDs only. */
  predicate Admissible(news: seq<TS.NewTarget>) {
    forall i :: 0 <= i < |news| ==> TS.ValidTargetID(news[i].id) && forall pt :: pt in news[i].types ==> KnownType(pt)
  }

  /** The targets an empty table is seeded with. */
  type Seeds = news: seq<TS.NewTarget> | Admissible(news) witness []

  lemma DefaultSeeds()
    ensures Admissible(Migration.DEFAULT_TARGETS)
  {
  }

  /** What a deployment is started with: the two hash functions, the push limit and the seeds. */
  datatype Deployment = Deployment(h: string -> Identity.Digest, hashToken: string -> string, limit: B.Params, seeds: Seeds)

  /** What a probe keeps of a fetch. */
  datatype Fetched = Fetched(config: Config, id: string, list: seq<Target>)

  /** The tables, the memory of the process, and what each probe was last served. */
  datatype State = State(
    catalog: C.Locations, tables: TS.Tables, setting: Option<Config>,
    latest: L.Entries, buckets: map<string, B.Bucket>, failures: A.Entries, held: map<string, Fetched>)

  type FullForm = f: S.Form | |f.numbers| == 6 witness S.Form(["", "", "", "", "", ""], false, false)

  /** What decoding makes of a request body. */
  datatype Body = Sent(request: PushRequest) | Malformed(error: Error)

  /** A request: the address it is attributed to, its token, the gateway's time, and the oldest entry the
      throttle's eviction scan came to, which matters only when a charge needs room. */
  datatype Caller = Caller(ip: string, token: string, at: int, victim: string)

  datatype Op =
    | Edit(op: C.Op)
    | TargetCreate(form: TS.TargetForm)
    | TargetUpdate(id: string, form: TS.TargetForm)
    | TargetDelete(id: string)
    | SettingsSave(settings: FullForm)
    | SettingsReset
    | Fetch(q: Caller)
    | Push(q: Caller, body: Body)

  const UNAUTHORIZED := Error(Unauthorized, "missing or invalid token")
  const DISABLED := Error(ProbeDisabled, "probe is disabled")
  const RATE_LIMITED := Error(RateLimited, "too many requests")
  const STALE := Error(ConfigStale, "measurement config is out of date")

  // ----- Authenticating ------------------------------------------------------------------

  function Bearers(d: Deployment, c: C.Locations, token: string): set<string> {
    set id | id in c.probes && c.probes[id].tokenHash == d.hashToken(token)
  }

  /** The probe a token belongs to; "" stands for a missing or malformed one. */
  function Owner(d: Deployment, c: C.Locations, token: string): Option<string> {
    if token == "" || Bearers(d, c, token) == {} then None else Some(Least(Bearers(d, c, token)))
  }

  predicate Blocked(s: State, q: Caller) { A.Blocked(s.failures, q.ip, q.at) }

  /** The token is looked up and found bad. */
  predicate Guessed(d: Deployment, s: State, q: Caller) {
    q.token != "" && !Blocked(s, q) && Owner(d, s.catalog, q.token) == None
  }

  /** Why a request is turned away before its probe is known; None lets it through. */
  function Gate(d: Deployment, s: State, q: Caller): (e: Option<Error>)
    ensures e == None ==> Owner(d, s.catalog, q.token).Some? && !Blocked(s, q)
  {
    if q.token == "" then Some(UNAUTHORIZED)
    else if Blocked(s, q) then Some(RATE_LIMITED)
    else if Owner(d, s.catalog, q.token).Some? then None
    else if A.ChargeAllowed(A.Peek(s.failures, q.ip, q.at), q.ip, q.at) then Some(UNAUTHORIZED)
    else Some(RATE_LIMITED)
  }

  /** The failure budgets afterwards: every well-formed request is peeked at, only a bad token is charged. */
  function AfterGate(d: Deployment, s: State, q: Caller): A.Entries {
    if q.token == "" then s.failures
    else if Guessed(d, s, q) then A.Charge(A.Peek(s.failures, q.ip, q.at), q.ip, q.at, q.victim)
    else A.Peek(s.failures, q.ip, q.at)
  }

  predicate Enabled(s: State, id: string) { id in s.catalog.probes && s.catalog.probes[id].enabled }

  /** The request is let through and its probe may act. */
  predicate Reaches(d: Deployment, s: State, q: Caller) {
    Gate(d, s, q) == None && Enabled(s, Owner(d, s.catalog, q.token).value)
  }

  predicate ReachesAs(d: Deployment, s: State, q: Caller, id: string) {
    Reaches(d, s, q) && Owner(d, s.catalog, q.token) == Some(id)
  }

  // ----- Fetching ------------------------------------------------------------------------

  function Current(d: Deployment, s: State): Fetched {
    var config, list := S.InForce(s.setting), TS.Dispatch(s.tables);
    Fetched(config, Identity.Identify(d.h, config, list), list)
  }

  function Served(d: Deployment, s: State, q: Caller): Option<Fetched> {
    if Reaches(d, s, q) then Some(Current(d, s)) else None
  }

  function AfterFetch(d: Deployment, s: State, q: Caller): State {
    s.(failures := AfterGate(d, s, q),
       held := if Reaches(d, s, q) then s.held[Owner(d, s.catalog, q.token).value := Current(d, s)] else s.held)
  }

  // ----- Pushing -------------------------------------------------------------------------

  predicate Admitted(d: Deployment, s: State, id: string, at: int) {
    B.Admits(d.limit, B.BucketOf(d.limit, s.buckets, id, at), at)
  }

  /** What the body of an admitted push is answered with. */
  function Judged(d: Deployment, s: State, body: Body): (e: Option<Error>)
    ensures e == None ==> body.Sent?
  {
    match body
    case Malformed(e) => Some(e)
    case Sent(r) => V.Verdict(r, TS.Allowed(s.tables), Current(d, s).id)
  }

  /** The answer to a push once its probe is known; None is 204. */
  function AnswerKnown(d: Deployment, s: State, id: string, body: Body, at: int): (e: Option<Error>)
    ensures e == None ==> Enabled(s, id) && body.Sent?
  {
    if !Enabled(s, id) then Some(DISABLED)
    else if !Admitted(d, s, id, at) then Some(RATE_LIMITED)
    else Judged(d, s, body)
  }

  function AfterKnown(d: Deployment, s: State, id: string, body: Body, at: int): State {
    if !Enabled(s, id) then s
    else
      s.(buckets := B.Step(d.limit, s.buckets, B.Allow(id, at)),
         latest := if AnswerKnown(d, s, id, body, at) == None then s.latest[id := L.Entry(body.request.results, at)] else s.latest)
  }

  function Answer(d: Deployment, s: State, q: Caller, body: Body): (e: Option<Error>)
    ensures e == None ==> Reaches(d, s, q) && body.Sent?
  {
    match Gate(d, s, q)
    case Some(e) => Some(e)
    case None => AnswerKnown(d, s, Owner(d, s.catalog, q.token).value, body, q.at)
  }

  function AfterPush(d: Deployment, s: State, q: Caller, body: Body): State {
    (if Gate(d, s, q) == None then AfterKnown(d, s, Owner(d, s.catalog, q.token).value, body, q.at) else s)
    .(failures := AfterGate(d, s, q))
  }

  // ----- Every step ----------------------------------------------------------------------

  /** What a step on the catalog leaves of the memory kept per probe. */
  function Cleared<T>(m: map<string, T>, c: C.Locations, op: C.Op): map<string, T> {
    match op
    case Restart(_) => map[]
    case ProbeToggle(id) => if id in c.probes && c.probes[id].enabled then m - {id} else m
    case ProbeDelete(id) => if id in c.probes then m - {id} else m
    case _ => m
  }

  function AfterEdit(d: Deployment, s: State, op: C.Op): State {
    s.(catalog := C.Next(s.catalog, op),
       tables := if op.Restart? then Migration.SeededWith(s.tables, d.seeds) else s.tables,
       latest := Cleared(s.latest, s.catalog, op),
       buckets := Cleared(s.buckets, s.catalog, op),
       failures := if op.Restart? then map[] else s.failures)
  }

  function AfterSave(d: Deployment, s: State, form: FullForm): State {
    match S.Submit(d.limit.interval, form)
    case Accepted(c) => s.(setting := Some(c))
    case Rejected(_) => s
  }

  function Next(d: Deployment, s: State, op: Op): State {
    match op
    case Edit(o) => AfterEdit(d, s, o)
    case TargetCreate(f) => s.(tables := TS.SubmitCreate(s.tables, f))
    case TargetUpdate(id, f) => s.(tables := TS.SubmitUpdate(s.tables, id, f))
    case TargetDelete(id) => s.(tables := TS.Removed(s.tables, id))
    case SettingsSave(f) => AfterSave(d, s, f)
    case SettingsReset => s.(setting := None)
    case Fetch(q) => AfterFetch(d, s, q)
    case Push(q, body) => AfterPush(d, s, q, body)
  }

  /** A start: any catalog, target tables that satisfy their invariants, and nothing in memory. */
  predicate IsStart(s: State) {
    && TS.TablesInv(s.tables)
    && s.latest == map[] && s.buckets == map[] && s.failures == map[] && s.held == map[]
  }

  /** When a charge needs room, the entry that goes is an oldest one. */
  predicate LegalVictim(d: Deployment, s: State, q: Caller) {
    Guessed(d, s, q) ==> A.CanCharge(A.Peek(s.failures, q.ip, q.at), q.ip, q.victim)
  }

  predicate Legal(d: Deployment, s: State, op: Op) { op.Fetch? || op.Push? ==> LegalVictim(d, s, op.q) }

  /** Step `i` leads from state `i` to the next one. */
  predicate Taken(d: Deployment, ops: seq<Op>, ss: seq<State>, i: nat)
    requires i < |ops| < |ss|
  {
    Legal(d, ss[i], ops[i]) && ss[i + 1] == Next(d, ss[i], ops[i])
  }

  /** A run: the steps taken and the states in between. */
  predicate IsRun(d: Deployment, ops: seq<Op>, ss: seq<State>) {
    |ss| == |ops| + 1 && IsStart(ss[0]) && forall i :: 0 <= i < |ops| ==> Taken(d, ops, ss, i)
  }

  // ----- The invariant -------------------------------------------------------------------

  predicate Genuine(d: Deployment, f: Fetched) {
    && f.id == Identity.Identify(d.h, f.config, f.list) && Identity.DistinctIDs(f.list)
    && forall t, pt :: t in f.list && pt in t.types ==> KnownType(pt)
  }

  /** Every measurement and bucket in memory belongs to an existing, enabled probe; every measurement
      is well formed. */
  predicate MemorySound(s: State) {
    && Scrape.Sound(s.latest)
    && (forall id :: id in s.latest ==> Enabled(s, id))
    && (forall id :: id in s.buckets ==> Enabled(s, id))
  }

  predicate HeldGenuine(d: Deployment, s: State) { forall id :: id in s.held ==> Genuine(d, s.held[id]) }

  predicate Inv(d: Deployment, s: State) {
    TS.TablesInv(s.tables) && MemorySound(s) && HeldGenuine(d, s)
  }

  lemma {:induction false} SeedingKeepsTables(t: TS.Tables, news: seq<TS.NewTarget>)
    requires TS.TablesInv(t) && Admissible(news)
    ensures TS.TablesInv(Migration.PutAll(t, news))
    decreases news
  {
    if news != [] { SeedingKeepsTables(TS.Put(t, news[0]), news[1..]); }
  }

  /** The first start, on an empty database, is one. */
  lemma FirstStart(d: Deployment)
    ensures var s := State(C.EMPTY, Migration.SeededWith(TS.Tables(map[], {}), d.seeds), None, map[], map[], map[], map[]);
            IsStart(s) && C.Inv(s.catalog) && C.Clean(s.catalog) && TargetsValid(s)
  {
    SeedingKeepsTables(TS.Tables(map[], {}), d.seeds);
    SeedingKeepsIDs(TS.Tables(map[], {}), d.seeds);
  }

  /** Only switching a probe off or deleting it ends its being enabled. */
  lemma EnabledKept(c: C.Locations, op: C.Op, id: string)
    requires id in c.probes && c.probes[id].enabled
    requires op != C.ProbeToggle(id) && op != C.ProbeDelete(id)
    ensures id in C.Next(c, op).probes && C.Next(c, op).probes[id].enabled
  {
  }

  lemma ClearedEnabled<T>(m: map<string, T>, c: C.Locations, op: C.Op, id: string)
    requires id in Cleared(m, c, op) && id in m ==> id in c.probes && c.probes[id].enabled
    requires id in Cleared(m, c, op)
    ensures id in C.Next(c, op).probes && C.Next(c, op).probes[id].enabled && m[id] == Cleared(m, c, op)[id]
  {
    EnabledKept(c, op, id);
  }

  lemma EditKeepsMemory(d: Deployment, s: State, op: C.Op)
    requires MemorySound(s)
    ensures MemorySound(AfterEdit(d, s, op))
  {
    var s' := AfterEdit(d, s, op);
    forall id | id in s'.latest ensures Enabled(s', id) && s'.latest[id] == s.latest[id] {
      ClearedEnabled(s.latest, s.catalog, op, id);
    }
    forall id | id in s'.buckets ensures Enabled(s', id) {
      ClearedEnabled(s.buckets, s.catalog, op, id);
    }
  }

  lemma EditKeepsInv(d: Deployment, s: State, op: C.Op)
    requires Inv(d, s)
    ensures Inv(d, AfterEdit(d, s, op))
  {
    SeedingKeepsTables(s.tables, d.seeds);
    EditKeepsMemory(d, s, op);
  }

  lemma CurrentGenuine(d: Deployment, s: State)
    requires TS.TablesInv(s.tables)
    ensures Genuine(d, Current(d, s))
  {
    TS.DispatchDistinct(s.tables);
    forall t, pt | t in TS.Dispatch(s.tables) && pt in t.types ensures KnownType(pt) {
      assert pt in Elements(t.types);
      assert (t.id, pt) in s.tables.types;
    }
  }

  lemma AcceptedIsSound(r: PushRequest, al: Allowlist, current: string)
    requires V.Verdict(r, al, current) == None
    ensures Scrape.SoundResults(r.results)
  {
    V.AcceptedIffAcceptable(r, al, current);
  }

  lemma PutSound(latest: L.Entries, id: string, e: L.Entry)
    requires Scrape.Sound(latest) && Scrape.SoundResults(e.results)
    ensures Scrape.Sound(latest[id := e])
  {
  }

  lemma PushKeepsSound(d: Deployment, s: State, q: Caller, body: Body)
    requires Scrape.Sound(s.latest)
    ensures Scrape.Sound(AfterPush(d, s, q, body).latest)
  {
    if Answer(d, s, q, body) == None {
      AcceptedIsSound(body.request, TS.Allowed(s.tables), Current(d, s).id);
      PutSound(s.latest, Owner(d, s.catalog, q.token).value, L.Entry(body.request.results, q.at));
    }
  }

  lemma MemoryKeepsInv(d: Deployment, s: State, id: string, latest: L.Entries, buckets: map<string, B.Bucket>, failures: A.Entries)
    requires Inv(d, s) && Enabled(s, id) && Scrape.Sound(latest)
    requires latest.Keys <= s.latest.Keys + {id} && buckets.Keys <= s.buckets.Keys + {id}
    ensures Inv(d, s.(latest := latest, buckets := buckets, failures := failures))
  {
    forall k | k in latest ensures Enabled(s, k) { assert k in latest.Keys; }
    forall k | k in buckets ensures Enabled(s, k) { assert k in buckets.Keys; }
  }

  lemma FailuresKeepInv(d: Deployment, s: State, failures: A.Entries)
    requires Inv(d, s)
    ensures Inv(d, s.(failures := failures))
  {
  }

  lemma PushKeepsInv(d: Deployment, s: State, q: Caller, body: Body)
    requires Inv(d, s)
    ensures Inv(d, AfterPush(d, s, q, body))
  {
    if Reaches(d, s, q) {
      var s' := AfterPush(d, s, q, body);
      PushKeepsSound(d, s, q, body);
      MemoryKeepsInv(d, s, Owner(d, s.catalog, q.token).value, s'.latest, s'.buckets, s'.failures);
    } else {
      FailuresKeepInv(d, s, AfterGate(d, s, q));
    }
  }

  lemma HoldKeepsInv(d: Deployment, s: State, id: string, f: Fetched, failures: A.Entries)
    requires Inv(d, s) && Genuine(d, f)
    ensures Inv(d, s.(held := s.held[id := f], failures := failures))
  {
  }

  lemma FetchKeepsInv(d: Deployment, s: State, q: Caller)
    requires Inv(d, s)
    ensures Inv(d, AfterFetch(d, s, q))
  {
    if Reaches(d, s, q) {
      CurrentGenuine(d, s);
      HoldKeepsInv(d, s, Owner(d, s.catalog, q.token).value, Current(d, s), AfterGate(d, s, q));
    } else {
      FailuresKeepInv(d, s, AfterGate(d, s, q));
    }
  }

  lemma TablesKeepInv(d: Deployment, s: State, tables: TS.Tables)
    requires Inv(d, s) && TS.TablesInv(tables)
    ensures Inv(d, s.(tables := tables))
  {
  }

  lemma SettingKeepsInv(d: Deployment, s: State, setting: Option<Config>)
    requires Inv(d, s)
    ensures Inv(d, s.(setting := setting))
  {
  }

  predicate OnTargets(op: Op) { op.TargetCreate? || op.TargetUpdate? || op.TargetDelete? }

  lemma TargetOpsKeepInv(d: Deployment, s: State, op: Op)
    requires Inv(d, s) && OnTargets(op)
    ensures Inv(d, Next(d, s, op))
  {
    match op
    case TargetCreate(f) => TS.EditsKeepTables(s.tables, "", f); TablesKeepInv(d, s, TS.SubmitCreate(s.tables, f));
    case TargetUpdate(id, f) => TS.EditsKeepTables(s.tables, id, f); TablesKeepInv(d, s, TS.SubmitUpdate(s.tables, id, f));
    case TargetDelete(id) => RemovalKeepsTables(s.tables, id); TablesKeepInv(d, s, TS.Removed(s.tables, id));
  }

  lemma OtherOpsKeepInv(d: Deployment, s: State, op: Op)
    requires Inv(d, s) && !OnTargets(op)
    ensures Inv(d, Next(d, s, op))
  {
    match op
    case Edit(o) => EditKeepsInv(d, s, o);
    case SettingsSave(f) => SettingKeepsInv(d, s, AfterSave(d, s, f).setting);
    case SettingsReset => SettingKeepsInv(d, s, None);
    case Fetch(q) => FetchKeepsInv(d, s, q);
    case Push(q, body) => PushKeepsInv(d, s, q, body);
  }

  lemma NextKeepsInv(d: Deployment, s: State, op: Op)
    requires Inv(d, s)
    ensures Inv(d, Next(d, s, op))
  {
    if OnTargets(op) { TargetOpsKeepInv(d, s, op); } else { OtherOpsKeepInv(d, s, op); }
  }

  lemma RemovalKeepsTables(t: TS.Tables, id: string)
    requires TS.TablesInv(t)
    ensures TS.TablesInv(TS.Removed(t, id))
  {
  }

  /** Every state of every run. */
  lemma {:induction false} EveryState(d: Deployment, ops: seq<Op>, ss: seq<State>, n: nat)
    requires IsRun(d, ops, ss) && n < |ss|
    ensures Inv(d, ss[n])
  {
    if n > 0 {
      EveryState(d, ops, ss, n - 1);
      assert Taken(d, ops, ss, n - 1);
      NextKeepsInv(d, ss[n - 1], ops[n - 1]);
    }
  }

  lemma CatalogSteps(d: Deployment, s: State, op: Op)
    ensures Next(d, s, op).catalog == if op.Edit? then C.Next(s.catalog, op.op) else s.catalog
  {
  }

  lemma CatalogTaken(d: Deployment, ops: seq<Op>, ss: seq<State>, i: nat)
    requires IsRun(d, ops, ss) && i < |ops|
    ensures ss[i + 1].catalog == if ops[i].Edit? then C.Next(ss[i].catalog, ops[i].op) else ss[i].catalog
  {
    assert Taken(d, ops, ss, i);
    CatalogSteps(d, ss[i], ops[i]);
  }

  /** From a consistent catalog, every state's catalog is consistent. */
  lemma {:induction false} EveryCatalogConsistent(d: Deployment, ops: seq<Op>, ss: seq<State>, n: nat)
    requires IsRun(d, ops, ss) && n < |ss| && C.Inv(ss[0].catalog)
    ensures C.Inv(ss[n].catalog)
  {
    if n > 0 {
      EveryCatalogConsistent(d, ops, ss, n - 1);
      CatalogTaken(d, ops, ss, n - 1);
      if ops[n - 1].Edit? { C.NextKeepsInv(ss[n - 1].catalog, ops[n - 1].op); }
    }
  }

  /** From one in which every named code exists, an upgraded one among them, none ever dangles. */
  lemma {:induction false} EveryCatalogCovered(d: Deployment, ops: seq<Op>, ss: seq<State>, n: nat)
    requires IsRun(d, ops, ss) && n < |ss| && C.Covered(ss[0].catalog)
    ensures C.Covered(ss[n].catalog)
  {
    if n > 0 {
      EveryCatalogCovered(d, ops, ss, n - 1);
      CatalogTaken(d, ops, ss, n - 1);
      if ops[n - 1].Edit? { C.NextKeepsCovered(ss[n - 1].catalog, ops[n - 1].op); }
    }
  }

  ghost predicate PicksRows(op: Op) { op.Edit? ==> C.PicksRows(op.op) }

  lemma {:induction false} EveryCatalogClean(d: Deployment, ops: seq<Op>, ss: seq<State>, n: nat)
    requires IsRun(d, ops, ss) && n < |ss| && C.Clean(ss[0].catalog) && forall i :: 0 <= i < |ops| ==> PicksRows(ops[i])
    ensures C.Clean(ss[n].catalog)
  {
    if n > 0 {
      EveryCatalogClean(d, ops, ss, n - 1);
      CatalogTaken(d, ops, ss, n - 1);
      assert PicksRows(ops[n - 1]);
      if ops[n - 1].Edit? { C.NextKeepsClean(ss[n - 1].catalog, ops[n - 1].op); }
    }
  }

  /** From a clean catalog, no scrape ever carries free text in a location or network label. */
  lemma EveryLabelClean(d: Deployment, ops: seq<Op>, ss: seq<State>, n: nat, now: int, threshold: int, e: Scrape.Series)
    requires IsRun(d, ops, ss) && n < |ss| && C.Clean(ss[0].catalog) && forall i :: 0 <= i < |ops| ==> PicksRows(ops[i])
    requires e in Scrape.Scraped(Scrape.View(ss[n].catalog.probes, ss[n].latest, now, threshold)) && e.labels != []
    ensures |e.labels| >= 5 && CleanLabels(e.labels)
  {
    EveryCatalogClean(d, ops, ss, n);
    Scrape.LabelsNameTheProbe(Scrape.View(ss[n].catalog.probes, ss[n].latest, now, threshold), e);
  }

  /** Campus, building group, building and network type. */
  predicate CleanLabels(l: seq<string>)
    requires |l| >= 5
  {
    Import.ValidCode(l[1]) && Import.ValidCode(l[2]) && Import.ValidCode(l[3]) && C.ValidNetwork(l[4])
  }

  /** With UNIQUE tokens, the owner of a token is the one probe that has it. */
  lemma OwnerIff(d: Deployment, c: C.Locations, token: string, id: string)
    requires C.TokensDistinct(c)
    ensures Owner(d, c, token) == Some(id) <==> token != "" && id in c.probes && c.probes[id].tokenHash == d.hashToken(token)
  {
    var b := Bearers(d, c, token);
    if id in b { assert b == {id} by { forall k | k in b ensures k == id {} } }
  }

  /** The step puts another probe's hash in nobody's way. */
  predicate FreeFor(c: C.Locations, id: string, hash: string) { forall p :: p in c.probes && c.probes[p].tokenHash == hash ==> p == id }

  /** After a rotation the probe answers to the new token, and nobody to the old one. */
  lemma RotationSwapsTokens(d: Deployment, c: C.Locations, id: string, next: string, last: string)
    requires C.TokensDistinct(c) && id in c.probes && next != "" && FreeFor(c, id, d.hashToken(next))
    requires Owner(d, c, last) == Some(id) && d.hashToken(last) != d.hashToken(next)
    ensures var after := C.Rotate(c, id, d.hashToken(next));
            && Owner(d, after, next) == Some(id) && Owner(d, after, last) == None
            && after.probes.Keys == c.probes.Keys && after.probes[id].enabled == c.probes[id].enabled
  {
    var after := C.Rotate(c, id, d.hashToken(next));
    RotateKeepsDistinct(c, id, d.hashToken(next));
    OwnerIff(d, c, last, id);
    OwnerIff(d, after, next, id);
    assert forall p :: p in after.probes && after.probes[p].tokenHash == d.hashToken(last) ==> p == id;
    assert Bearers(d, after, last) == {};
  }

  lemma RotateKeepsDistinct(c: C.Locations, id: string, hash: string)
    requires C.TokensDistinct(c)
    ensures C.TokensDistinct(C.Rotate(c, id, hash))
  {
  }

  /** Every other token resolves as before. */
  lemma RotationSparesOthers(d: Deployment, c: C.Locations, id: string, hash: string, token: string)
    requires id in c.probes && d.hashToken(token) != hash && d.hashToken(token) != c.probes[id].tokenHash
    ensures Owner(d, C.Rotate(c, id, hash), token) == Owner(d, c, token)
  {
    assert Bearers(d, C.Rotate(c, id, hash), token) == Bearers(d, c, token);
  }

  /** A toggle switches exactly its probe, and a second one switches it back. */
  lemma ToggleSwitches(d: Deployment, s: State, id: string, other: string, op: Op)
    requires op == Edit(C.ProbeToggle(id)) && id in s.catalog.probes
    ensures var s1 := Next(d, s, op); var s2 := Next(d, s1, op);
            && (Enabled(s1, id) <==> !Enabled(s, id)) && (Enabled(s2, id) <==> Enabled(s, id))
            && (other != id ==> (Enabled(s1, other) <==> Enabled(s, other))) && s2.catalog == s.catalog
  {
    C.ToggleTwice(s.catalog, id);
    ToggleStep(d, s, op);
    ToggleStep(d, Next(d, s, op), op);
  }

  lemma ToggleStep(d: Deployment, s: State, op: Op)
    requires op.Edit? && op.op.ProbeToggle?
    ensures Next(d, s, op).catalog == C.Toggle(s.catalog, op.op.id)
  {
    match op
    case Edit(o) =>
      match o
      case ProbeToggle(id) =>
  }

  // ----- The one label a probe chooses ---------------------------------------------------

  /** Every target ID in the tables, and every one in memory, is a valid one. */
  predicate TargetsValid(s: State) {
    && (forall id :: id in s.tables.targets ==> TS.ValidTargetID(id))
    && LatestNamesValid(s.latest)
  }

  predicate LatestNamesValid(latest: L.Entries) { forall p :: p in latest ==> NamesValid(latest[p].results) }

  predicate NamesValid(results: Results) { forall t :: t in results ==> TS.ValidTargetID(t) }

  lemma {:induction false} SeedingKeepsIDs(t: TS.Tables, news: seq<TS.NewTarget>)
    requires Admissible(news) && forall id :: id in t.targets ==> TS.ValidTargetID(id)
    ensures forall id :: id in Migration.PutAll(t, news).targets ==> TS.ValidTargetID(id)
    decreases news
  {
    if news != [] { SeedingKeepsIDs(TS.Put(t, news[0]), news[1..]); }
  }

  lemma TargetEditsKeepIDs(t: TS.Tables, id: string, f: TS.TargetForm)
    requires forall k :: k in t.targets ==> TS.ValidTargetID(k)
    ensures forall k :: k in TS.SubmitCreate(t, f).targets ==> TS.ValidTargetID(k)
    ensures forall k :: k in TS.SubmitUpdate(t, id, f).targets ==> TS.ValidTargetID(k)
  {
  }

  lemma AcceptedNamesValid(s: State, r: PushRequest, current: string)
    requires (forall id :: id in s.tables.targets ==> TS.ValidTargetID(id)) && V.Verdict(r, TS.Allowed(s.tables), current) == None
    ensures NamesValid(r.results)
  {
    V.AcceptedIffAcceptable(r, TS.Allowed(s.tables), current);
  }

  lemma PutNamesValid(latest: L.Entries, id: string, e: L.Entry)
    requires LatestNamesValid(latest) && NamesValid(e.results)
    ensures LatestNamesValid(latest[id := e])
  {
  }

  lemma EditKeepsTargetsValid(d: Deployment, s: State, op: C.Op)
    requires TargetsValid(s)
    ensures TargetsValid(AfterEdit(d, s, op))
  {
    SeedingKeepsIDs(s.tables, d.seeds);
  }

  lemma PushKeepsTargetsValid(d: Deployment, s: State, q: Caller, body: Body)
    requires TargetsValid(s)
    ensures TargetsValid(AfterPush(d, s, q, body))
  {
    if Answer(d, s, q, body) == None {
      AcceptedNamesValid(s, body.request, Current(d, s).id);
      PutNamesValid(s.latest, Owner(d, s.catalog, q.token).value, L.Entry(body.request.results, q.at));
    }
  }

  lemma NextKeepsTargetsValid(d: Deployment, s: State, op: Op)
    requires TargetsValid(s)
    ensures TargetsValid(Next(d, s, op))
  {
    match op
    case Edit(o) => EditKeepsTargetsValid(d, s, o);
    case TargetCreate(f) => TargetEditsKeepIDs(s.tables, "", f);
    case TargetUpdate(id, f) => TargetEditsKeepIDs(s.tables, id, f);
    case Push(q, body) => PushKeepsTargetsValid(d, s, q, body);
    case _ =>
  }

  lemma {:induction false} EveryTargetValid(d: Deployment, ops: seq<Op>, ss: seq<State>, n: nat)
    requires IsRun(d, ops, ss) && n < |ss| && TargetsValid(ss[0])
    ensures TargetsValid(ss[n])
  {
    if n > 0 {
      EveryTargetValid(d, ops, ss, n - 1);
      assert Taken(d, ops, ss, n - 1);
      NextKeepsTargetsValid(d, ss[n - 1], ops[n - 1]);
    }
  }

  /** From valid target IDs, the target label of every measurement series, which comes out of a push, is
      a valid target ID. */
  lemma EveryTargetLabelValid(d: Deployment, ops: seq<Op>, ss: seq<State>, n: nat, now: int, threshold: int, e: Scrape.Series, t: string)
    requires IsRun(d, ops, ss) && n < |ss| && TargetsValid(ss[0]) && Scrape.TypeOf(e.metric) == Some(t)
    requires e in Scrape.Scraped(Scrape.View(ss[n].catalog.probes, ss[n].latest, now, threshold))
    ensures |e.labels| == 6 && TS.ValidTargetID(e.labels[5])
  {
    EveryTargetValid(d, ops, ss, n);
    Scrape.MeasurementSeries(Scrape.View(ss[n].catalog.probes, ss[n].latest, now, threshold), e, t);
    assert NamesValid(ss[n].latest[e.labels[0]].results);
  }

  // ----- Stale, never unknown ------------------------------------------------------------

  /** A push by a probe that does what its last fetch told it. */
  predicate Obeys(f: Fetched, r: PushRequest) {
    && r.version == V.VERSION && r.configID == f.id && r.timestamp >= 0
    && Text.ByteLen(r.probeVersion) <= V.MAX_PROBE_VERSION_LEN
    && r.results != map[]
    && forall t :: t in r.results ==> r.results[t] != map[] && ObeysFor(f, t, r.results[t])
  }

  predicate ObeysFor(f: Fetched, target: string, byType: ByType) {
    forall pt :: pt in byType ==> V.WellFormed(pt, byType[pt]) && exists t :: t in f.list && t.id == target && pt in t.types
  }

  /** The configuration in force is, as a set, the one fetched. */
  ghost predicate Unchanged(s: State, f: Fetched) {
    S.InForce(s.setting) == f.config && Identity.Entries(TS.Dispatch(s.tables)) == Identity.Entries(f.list)
  }

  /** The hash tells the fetched configuration from the current one, if they differ. */
  ghost predicate ToldApart(d: Deployment, s: State, f: Fetched) {
    Identity.NoCollision(d.h, Identity.PayloadOf(f.config, f.list),
                         Identity.PayloadOf(S.InForce(s.setting), TS.Dispatch(s.tables)))
  }

  lemma SameIDIffUnchanged(d: Deployment, s: State, f: Fetched)
    requires Genuine(d, f) && ToldApart(d, s, f)
    ensures Current(d, s).id == f.id <==> Unchanged(s, f)
  {
    TS.DispatchDistinct(s.tables);
    Identity.IdentityOfTheSet(d.h, f.config, f.list, S.InForce(s.setting), TS.Dispatch(s.tables));
  }

  /** What was fetched is still allowed while the configuration is unchanged. */
  lemma StillAllowed(s: State, f: Fetched, t: Target, pt: string)
    requires Unchanged(s, f) && t in f.list && pt in t.types
    ensures t.id in TS.Allowed(s.tables) && pt in TS.Allowed(s.tables)[t.id]
  {
    assert Identity.EntryOf(t) in Identity.Entries(f.list);
    var u :| u in TS.Dispatch(s.tables) && Identity.EntryOf(u) == Identity.EntryOf(t);
    assert pt in multiset(t.types) && multiset(t.types) == multiset(u.types);
    TS.DispatchedIsAllowed(s.tables, u, pt);
  }

  lemma ObedientAcceptable(d: Deployment, s: State, f: Fetched, r: PushRequest)
    requires Genuine(d, f) && Obeys(f, r) && Unchanged(s, f) && Current(d, s).id == f.id
    ensures V.Acceptable(r, TS.Allowed(s.tables), Current(d, s).id)
  {
    Identity.IdentifyIsUuidV5(d.h, f.config, f.list);
    forall t | t in r.results
      ensures t in TS.Allowed(s.tables) && V.AllWellFormed(TS.Allowed(s.tables)[t], r.results[t])
    {
      ObedientTarget(s, f, t, r.results[t]);
    }
  }

  lemma ObedientTarget(s: State, f: Fetched, target: string, byType: ByType)
    requires Unchanged(s, f) && byType != map[] && ObeysFor(f, target, byType)
    requires forall t, pt :: t in f.list && pt in t.types ==> KnownType(pt)
    ensures target in TS.Allowed(s.tables) && V.AllWellFormed(TS.Allowed(s.tables)[target], byType)
  {
    forall pt | pt in byType ensures target in TS.Allowed(s.tables) && pt in TS.Allowed(s.tables)[target] && KnownType(pt) {
      var t :| t in f.list && t.id == target && pt in t.types;
      StillAllowed(s, f, t, pt);
    }
    var pt :| pt in byType;
  }

  /** The design promise: accepted exactly when the configuration is still the fetched one, as a
      set; otherwise the answer is "stale", and nothing else. */
  lemma StaleNeverUnknown(d: Deployment, s: State, f: Fetched, r: PushRequest)
    requires Genuine(d, f) && Obeys(f, r) && ToldApart(d, s, f)
    ensures V.Verdict(r, TS.Allowed(s.tables), Current(d, s).id) == if Unchanged(s, f) then None else Some(STALE)
  {
    SameIDIffUnchanged(d, s, f);
    if Unchanged(s, f) {
      ObedientAcceptable(d, s, f, r);
      V.AcceptedIffAcceptable(r, TS.Allowed(s.tables), Current(d, s).id);
    } else {
      Identity.IdentifyIsUuidV5(d.h, f.config, f.list);
    }
  }

  /** The same in every state of every run of edits, fetches, pushes and restarts: to a probe that
      obeys its last fetch there are two other answers than "accepted", "stale", and "too many requests"
      exactly when its address is blocked or its own allowance is spent. */
  lemma ObedientProbeInEveryRun(
      d: Deployment, ops: seq<Op>, ss: seq<State>, n: nat, q: Caller, id: string, r: PushRequest)
    requires IsRun(d, ops, ss) && n < |ss|
    requires Owner(d, ss[n].catalog, q.token) == Some(id) && Enabled(ss[n], id)
    requires id in ss[n].held && Obeys(ss[n].held[id], r) && ToldApart(d, ss[n], ss[n].held[id])
    ensures Answer(d, ss[n], q, Sent(r)) ==
              if Blocked(ss[n], q) || !Admitted(d, ss[n], id, q.at) then Some(RATE_LIMITED)
              else if Unchanged(ss[n], ss[n].held[id]) then None
              else Some(STALE)
  {
    EveryState(d, ops, ss, n);
    StaleNeverUnknown(d, ss[n], ss[n].held[id], r);
  }

  /** Steps that edit neither the targets nor the parameters. */
  predicate Quiet(op: Op) { op.Edit? || op.Fetch? || op.Push? }

  predicate QuietBetween(ops: seq<Op>, i: nat, n: nat)
    requires n <= |ops|
  {
    forall j :: i <= j < n ==> Quiet(ops[j])
  }

  /** A restart seeds targets only into an empty table. */
  lemma QuietStep(d: Deployment, s: State, op: Op)
    requires Quiet(op) && s.tables.targets != map[]
    ensures Next(d, s, op).tables == s.tables && Next(d, s, op).setting == s.setting
  {
  }

  lemma QuietTaken(d: Deployment, ops: seq<Op>, ss: seq<State>, i: nat)
    requires IsRun(d, ops, ss) && i < |ops| && Quiet(ops[i]) && ss[i].tables.targets != map[]
    ensures ss[i + 1].tables == ss[i].tables && ss[i + 1].setting == ss[i].setting
  {
    assert Taken(d, ops, ss, i);
    QuietStep(d, ss[i], ops[i]);
  }

  lemma {:induction false} QuietKeeps(d: Deployment, ops: seq<Op>, ss: seq<State>, i: nat, n: nat)
    requires IsRun(d, ops, ss) && i <= n < |ss| && QuietBetween(ops, i, n) && ss[i].tables.targets != map[]
    ensures ss[n].tables == ss[i].tables && ss[n].setting == ss[i].setting
    decreases n - i
  {
    if i < n {
      QuietTaken(d, ops, ss, i);
      QuietKeeps(d, ops, ss, i + 1, n);
    }
  }

  lemma TablesSound(d: Deployment, ops: seq<Op>, ss: seq<State>, n: nat)
    requires IsRun(d, ops, ss) && n < |ss|
    ensures TS.TablesInv(ss[n].tables)
  {
    EveryState(d, ops, ss, n);
  }

  lemma ObeyedHasTargets(s: State, f: Fetched, r: PushRequest)
    requires f.list == TS.Dispatch(s.tables) && Obeys(f, r)
    ensures s.tables.targets != map[]
  {
    var t :| t in r.results;
    var pt :| pt in r.results[t];
    assert ObeysFor(f, t, r.results[t]);
    var u :| u in f.list && u.id == t && pt in u.types;
  }

  /** A restart never makes an obedient probe stale. */
  lemma RestartNeverStale(d: Deployment, s: State, f: Fetched, r: PushRequest, pick: set<string> -> string)
    requires Unchanged(s, f) && Obeys(f, r)
    ensures Unchanged(Next(d, s, Edit(C.Restart(pick))), f)
  {
    var t :| t in r.results;
    var pt :| pt in r.results[t];
    assert ObeysFor(f, t, r.results[t]);
    var u :| u in f.list && u.id == t && pt in u.types;
    StillAllowed(s, f, u, pt);
    QuietStep(d, s, Edit(C.Restart(pick)));
  }

  /** A fetch cures "stale": until the next edit of the configuration, an obedient push passes
      validation, restarts included. No assumption on the hash is needed. */
  lemma FetchCuresStale(d: Deployment, ops: seq<Op>, ss: seq<State>, i: nat, n: nat, q: Caller, f: Fetched, r: PushRequest)
    requires IsRun(d, ops, ss) && i < n < |ss| && ops[i] == Fetch(q) && QuietBetween(ops, i, n)
    requires Served(d, ss[i], q) == Some(f) && Obeys(f, r)
    ensures V.Verdict(r, TS.Allowed(ss[n].tables), Current(d, ss[n]).id) == None
  {
    TablesSound(d, ops, ss, n);
    ServedHasTargets(d, ss[i], q, f, r);
    QuietKeeps(d, ops, ss, i, n);
    ServedObeyed(d, ss[i], ss[n], q, f, r);
  }

  lemma ServedHasTargets(d: Deployment, s: State, q: Caller, f: Fetched, r: PushRequest)
    requires Served(d, s, q) == Some(f) && Obeys(f, r)
    ensures s.tables.targets != map[]
  {
    ObeyedHasTargets(s, f, r);
  }

  lemma ServedObeyed(d: Deployment, s: State, later: State, q: Caller, f: Fetched, r: PushRequest)
    requires TS.TablesInv(later.tables) && later.tables == s.tables && later.setting == s.setting
    requires Served(d, s, q) == Some(f) && Obeys(f, r)
    ensures V.Verdict(r, TS.Allowed(later.tables), Current(d, later).id) == None
  {
    assert f == Current(d, later);
    CurrentObeyed(d, later, r);
  }

  lemma CurrentObeyed(d: Deployment, s: State, r: PushRequest)
    requires TS.TablesInv(s.tables) && Obeys(Current(d, s), r)
    ensures V.Verdict(r, TS.Allowed(s.tables), Current(d, s).id) == None
  {
    CurrentGenuine(d, s);
    StaleNeverUnknown(d, s, Current(d, s), r);
  }

  // ----- Both answers happen -------------------------------------------------------------

  /** A measurement that failed: well formed for every type. */
  const FAILED := Measurement(
    Some(ICMPResult(false, 1, 0, Fin(1.0), None, None, None, None)), Some(DNSResult(false, None)), Some(HTTPResult(false, None, None)))

  function Report(f: Fetched, target: string, pt: string): PushRequest {
    PushRequest(V.VERSION, 0, "", f.id, map[target := map[pt := FAILED]])
  }

  lemma ReportObeys(f: Fetched, t: Target, pt: string)
    requires t in f.list && pt in t.types && KnownType(pt)
    ensures Obeys(f, Report(f, t.id, pt))
  {
    FailedWellFormed(pt);
    var byType := map[pt := FAILED];
    assert pt in byType && t.id in Report(f, t.id, pt).results;
    assert ObeysFor(f, t.id, byType);
  }

  lemma FailedWellFormed(pt: string)
    requires KnownType(pt)
    ensures V.WellFormed(pt, FAILED)
  {
    assert 1 as real == 1.0 && V.LossOf(FAILED.icmp.value) == 1.0;
  }

  lemma FetchHolds(d: Deployment, s: State, q: Caller, id: string)
    requires ReachesAs(d, s, q, id)
    ensures AfterFetch(d, s, q) == s.(failures := AfterGate(d, s, q), held := s.held[id := Current(d, s)])
  {
  }

  lemma FreshAnswer(d: Deployment, s: State, q: Caller, id: string, r: PushRequest)
    requires ReachesAs(d, s, q, id) && id !in s.buckets
    ensures Answer(d, s, q, Sent(r)) == V.Verdict(r, TS.Allowed(s.tables), Current(d, s).id)
  {
    B.CapCoversOne(d.limit);
  }

  lemma ReportAccepted(d: Deployment, s: State, f: Fetched, t: Target, pt: string)
    requires TS.TablesInv(s.tables) && f == Current(d, s) && t in f.list && pt in t.types
    ensures Obeys(f, Report(f, t.id, pt))
    ensures V.Verdict(Report(f, t.id, pt), TS.Allowed(s.tables), Current(d, s).id) == None
  {
    CurrentGenuine(d, s);
    ReportObeys(f, t, pt);
    CurrentObeyed(d, s, Report(f, t.id, pt));
  }

  /** A request that was let through leaves its address as it was: it is let through again later. */
  lemma ServedStaysServed(d: Deployment, s: State, q: Caller, id: string, held: map<string, Fetched>, q': Caller)
    requires ReachesAs(d, s, q, id) && q'.ip == q.ip && q'.token == q.token && q.at <= q'.at
    ensures ReachesAs(d, s.(failures := AfterGate(d, s, q), held := held), q', id)
  {
  }

  lemma SameTablesSameVerdict(d: Deployment, s: State, failures: A.Entries, held: map<string, Fetched>, r: PushRequest)
    ensures var s1 := s.(failures := failures, held := held);
            V.Verdict(r, TS.Allowed(s1.tables), Current(d, s1).id) == V.Verdict(r, TS.Allowed(s.tables), Current(d, s).id)
  {
  }

  /** A probe that is served a fetch, with a fresh bucket, can report every pair it was given, and a push
      of it from the same address is accepted. */
  lemma FetchThenAccepted(d: Deployment, s: State, q: Caller, id: string, f: Fetched, t: Target, pt: string, q': Caller)
    requires TS.TablesInv(s.tables) && ReachesAs(d, s, q, id) && id !in s.buckets
    requires f == Current(d, s) && t in f.list && pt in t.types
    requires q'.ip == q.ip && q'.token == q.token && q.at <= q'.at
    ensures var s1 := s.(failures := AfterGate(d, s, q), held := s.held[id := f]);
            && AfterFetch(d, s, q) == s1 && Obeys(f, Report(f, t.id, pt))
            && Answer(d, s1, q', Sent(Report(f, t.id, pt))) == None
  {
    var r, s1 := Report(f, t.id, pt), s.(failures := AfterGate(d, s, q), held := s.held[id := f]);
    FetchHolds(d, s, q, id);
    ReportAccepted(d, s, f, t, pt);
    ServedStaysServed(d, s, q, id, s.held[id := f], q');
    SameTablesSameVerdict(d, s, AfterGate(d, s, q), s.held[id := f], r);
    FreshAnswer(d, s1, q', id, r);
  }

  lemma OneStepRun(d: Deployment, op: Op, s: State) returns (ops: seq<Op>, ss: seq<State>)
    requires IsStart(s) && Legal(d, s, op)
    ensures IsRun(d, ops, ss) && |ops| == 1 && ops[0] == op && ss[0] == s && ss[1] == Next(d, s, op)
  {
    ops, ss := [op], [s, Next(d, s, op)];
    assert Taken(d, ops, ss, 0);
  }

  /** A small installation: one probe, one target. */
  function Small(d: Deployment): State {
    var p := C.Probe(d.hashToken("t"), "a", "A", "g", "G", "b", "B", "wired", true, "", false);
    var c := C.Locations(map["a" := "A"], map["b" := Import.Building("a", "g", "G", "B")], map["p" := p]);
    State(c, TS.Tables(map["d" := TS.TargetRow("D", "1.1.1.1", "", true)], {("d", ICMP)}), None, map[], map[], map[], map[])
  }

  lemma SmallServes(d: Deployment)
    ensures var s := Small(d);
            && IsStart(s) && C.Inv(s.catalog) && Owner(d, s.catalog, "t") == Some("p") && Enabled(s, "p")
            && exists t :: t in TS.Dispatch(s.tables) && t.id == "d" && ICMP in t.types
  {
    var s := Small(d);
    assert C.TokensDistinct(s.catalog);
    OwnerIff(d, s.catalog, "t", "p");
    assert ("d", ICMP) in s.tables.types && ICMP in TS.TypesOf(s.tables, "d");
    assert TS.NonBlank("1.1.1.1") by { assert "1.1.1.1"[0] in "1.1.1.1"; }
    TS.DispatchComplete(s.tables, "d");
    var t := TS.DispatchTarget(s.tables, "d");
    assert ICMP in Elements(t.types);
  }

  lemma FetchStep(d: Deployment, s: State, op: Op)
    requires op.Fetch?
    ensures Next(d, s, op) == AfterFetch(d, s, op.q)
  {
    match op
    case Fetch(q) =>
  }

  lemma CurrentToldApart(d: Deployment, s: State, f: Fetched, failures: A.Entries, held: map<string, Fetched>)
    requires f == Current(d, s)
    ensures ToldApart(d, s.(failures := failures, held := held), f)
  {
  }

  const SOMEONE := Caller("1.2.3.4", "t", 0, "")

  lemma SmallReaches(d: Deployment)
    ensures ReachesAs(d, Small(d), SOMEONE, "p") && Legal(d, Small(d), Fetch(SOMEONE))
  {
    SmallServes(d);
  }

  /** The premises of the promise are met: a run in which a probe holds a fetch and obeys it. */
  lemma PromiseApplies(d: Deployment) returns (ops: seq<Op>, ss: seq<State>, r: PushRequest)
    ensures IsRun(d, ops, ss) && |ss| == 2
    ensures Owner(d, ss[1].catalog, "t") == Some("p") && Enabled(ss[1], "p") && "p" in ss[1].held
    ensures Obeys(ss[1].held["p"], r) && ToldApart(d, ss[1], ss[1].held["p"])
  {
    SmallServes(d);
    SmallReaches(d);
    var s, f := Small(d), Current(d, Small(d));
    var t :| t in TS.Dispatch(s.tables) && t.id == "d" && ICMP in t.types;
    r := Report(f, t.id, ICMP);
    ReportAccepted(d, s, f, t, ICMP);
    FetchHolds(d, s, SOMEONE, "p");
    FetchStep(d, s, Fetch(SOMEONE));
    CurrentToldApart(d, s, f, AfterGate(d, s, SOMEONE), s.held["p" := f]);
    ops, ss := OneStepRun(d, Fetch(SOMEONE), s);
  }

  /** Once anything that was fetched is no longer allowed, every obedient push is stale, whether or
      not it reports that target. */
  lemma WithdrawnThenStale(d: Deployment, later: State, f: Fetched, r: PushRequest, t: Target, pt: string)
    requires Genuine(d, f) && Obeys(f, r) && ToldApart(d, later, f)
    requires t in f.list && pt in t.types && !(t.id in TS.Allowed(later.tables) && pt in TS.Allowed(later.tables)[t.id])
    ensures V.Verdict(r, TS.Allowed(later.tables), Current(d, later).id) == Some(STALE)
  {
    StaleNeverUnknown(d, later, f, r);
    if Unchanged(later, f) {
      StillAllowed(later, f, t, pt);
    }
  }

  /** A type the administrator has unticked makes every held fetch that has it stale. */
  lemma UntickedThenStale(d: Deployment, s: State, f: Fetched, r: PushRequest, t: Target, pt: string, form: TS.TargetForm)
    requires Genuine(d, f) && Obeys(f, r) && t in f.list && pt in t.types
    requires TS.FormAccepted(form) && t.id in s.tables.targets && pt !in form.types
    requires ToldApart(d, s.(tables := TS.SubmitUpdate(s.tables, t.id, form)), f)
    ensures var later := s.(tables := TS.SubmitUpdate(s.tables, t.id, form));
            V.Verdict(r, TS.Allowed(later.tables), Current(d, later).id) == Some(STALE)
  {
    var later := s.(tables := TS.SubmitUpdate(s.tables, t.id, form));
    TS.UntickedIsGone(s.tables, t.id, form, t.address, pt);
    assert !TS.PairAllowed(later.tables, t.id, pt);
    WithdrawnThenStale(d, later, f, r, t, pt);
  }

  // ----- Which parameters are served -----------------------------------------------------

  /** The step saves `c`. */
  predicate Saves(d: Deployment, op: Op, c: Config) { op.SettingsSave? && S.Submit(d.limit.interval, op.settings) == S.Accepted(c) }

  /** The step changes what is stored. */
  predicate Settles(d: Deployment, op: Op) {
    op.SettingsReset? || (op.SettingsSave? && S.Submit(d.limit.interval, op.settings).Accepted?)
  }

  /** From step `k` on nothing changes what is stored. */
  predicate SettledFrom(d: Deployment, ops: seq<Op>, k: nat, n: nat)
    requires n <= |ops|
  {
    forall j :: k <= j < n ==> !Settles(d, ops[j])
  }

  lemma StepSetting(d: Deployment, s: State, op: Op)
    ensures !Settles(d, op) ==> Next(d, s, op).setting == s.setting
    ensures op.SettingsReset? ==> Next(d, s, op).setting == None
    ensures forall c :: Saves(d, op, c) ==> Next(d, s, op).setting == Some(c)
  {
    match op
    case SettingsSave(form) =>
    case SettingsReset =>
    case _ =>
  }

  lemma TakenSetting(d: Deployment, ops: seq<Op>, ss: seq<State>, i: nat)
    requires IsRun(d, ops, ss) && i < |ops|
    ensures !Settles(d, ops[i]) ==> ss[i + 1].setting == ss[i].setting
    ensures ops[i].SettingsReset? ==> ss[i + 1].setting == None
    ensures forall c :: Saves(d, ops[i], c) ==> ss[i + 1].setting == Some(c)
  {
    assert Taken(d, ops, ss, i);
    StepSetting(d, ss[i], ops[i]);
  }

  lemma {:induction false} SettingStays(d: Deployment, ops: seq<Op>, ss: seq<State>, k: nat, n: nat)
    requires IsRun(d, ops, ss) && k <= n < |ss| && SettledFrom(d, ops, k, n)
    ensures ss[n].setting == ss[k].setting
    decreases n - k
  {
    if k < n {
      TakenSetting(d, ops, ss, k);
      SettingStays(d, ops, ss, k + 1, n);
    }
  }

  lemma SavedIsValid(d: Deployment, op: Op, c: Config)
    requires Saves(d, op, c)
    ensures S.Valid(c)
  {
  }

  lemma SavedStays(d: Deployment, ops: seq<Op>, ss: seq<State>, n: nat, k: nat, c: Config)
    requires IsRun(d, ops, ss) && k < n < |ss| && Saves(d, ops[k], c) && SettledFrom(d, ops, k + 1, n)
    ensures ss[n].setting == Some(c)
  {
    TakenSetting(d, ops, ss, k);
    SettingStays(d, ops, ss, k + 1, n);
  }

  lemma ResetStays(d: Deployment, ops: seq<Op>, ss: seq<State>, n: nat, k: nat)
    requires IsRun(d, ops, ss) && k < n < |ss| && ops[k].SettingsReset? && SettledFrom(d, ops, k + 1, n)
    ensures ss[n].setting == None
  {
    TakenSetting(d, ops, ss, k);
    SettingStays(d, ops, ss, k + 1, n);
  }

  lemma ServedConfig(d: Deployment, s: State, q: Caller, f: Fetched)
    requires Served(d, s, q) == Some(f)
    ensures f.config == S.InForce(s.setting)
  {
  }

  /** In every run, what a fetch serves after an accepted save are the saved parameters, until the next
      accepted save or reset. */
  lemma LastSaveIsServed(d: Deployment, ops: seq<Op>, ss: seq<State>, n: nat, k: nat, c: Config, q: Caller, f: Fetched)
    requires IsRun(d, ops, ss) && k < n < |ss| && Saves(d, ops[k], c) && SettledFrom(d, ops, k + 1, n)
    requires Served(d, ss[n], q) == Some(f)
    ensures f.config == c
  {
    SavedStays(d, ops, ss, n, k, c);
    SavedIsValid(d, ops[k], c);
    ServedConfig(d, ss[n], q, f);
  }

  /** After a reset they are the defaults. */
  lemma ResetServesDefaults(d: Deployment, ops: seq<Op>, ss: seq<State>, n: nat, k: nat, q: Caller, f: Fetched)
    requires IsRun(d, ops, ss) && k < n < |ss| && ops[k].SettingsReset? && SettledFrom(d, ops, k + 1, n)
    requires Served(d, ss[n], q) == Some(f)
    ensures f.config == S.DEFAULTS
  {
    ResetStays(d, ops, ss, n, k);
    ServedConfig(d, ss[n], q, f);
  }

  /** And before either, the valid set stored at the start, else the defaults. */
  lemma StoredIsServed(d: Deployment, ops: seq<Op>, ss: seq<State>, n: nat, q: Caller, f: Fetched)
    requires IsRun(d, ops, ss) && n < |ss| && SettledFrom(d, ops, 0, n)
    requires Served(d, ss[n], q) == Some(f)
    ensures f.config == match ss[0].setting case Some(c) => if S.Valid(c) then c else S.DEFAULTS case None => S.DEFAULTS
  {
    SettingStays(d, ops, ss, 0, n);
    ServedConfig(d, ss[n], q, f);
  }

  /** A fetch serves every pair that is dispatched, with its address, and no other. */
  lemma ServedIff(d: Deployment, s: State, q: Caller, id: string, address: string, pt: string)
    requires Served(d, s, q).Some?
    ensures (exists t :: t in Served(d, s, q).value.list && t.id == id && t.address == address && pt in t.types) <==>
              && id in s.tables.targets && s.tables.targets[id].enabled && pt in TS.TypesOf(s.tables, id)
              && address == s.tables.targets[id].address && TS.NonBlank(address)
  {
    TS.DispatchedIff(s.tables, id, address, pt);
  }

  // ----- What is in memory ---------------------------------------------------------------

  function Lookup<T>(m: map<string, T>, id: string): Option<T> { if id in m then Some(m[id]) else None }

  predicate Accepts(d: Deployment, s: State, op: Op, id: string) {
    op.Push? && Owner(d, s.catalog, op.q.token) == Some(id) && Answer(d, s, op.q, op.body) == None
  }

  /** What an accepted push of this probe brings: its results, and the gateway's own time. */
  function Brought(d: Deployment, s: State, op: Op, id: string): Option<L.Entry> {
    if Accepts(d, s, op, id) then Some(L.Entry(op.body.request.results, op.q.at)) else None
  }

  /** A restart, or switching off or deleting an existing probe. */
  predicate Forgets(s: State, op: Op, id: string) {
    op.Edit? && (op.op.Restart? || (op.op == C.ProbeToggle(id) && Enabled(s, id))
                 || (op.op == C.ProbeDelete(id) && id in s.catalog.probes))
  }

  /** What each step brings for the probe, if anything. */
  function Puts(d: Deployment, ops: seq<Op>, ss: seq<State>, id: string): seq<Option<L.Entry>>
    requires |ops| < |ss|
  {
    seq(|ops|, i requires 0 <= i < |ops| => Brought(d, ss[i], ops[i], id))
  }

  /** Whether each step makes the gateway forget the probe. */
  function Drops(ops: seq<Op>, ss: seq<State>, id: string): seq<bool>
    requires |ops| < |ss|
  {
    seq(|ops|, i requires 0 <= i < |ops| => Forgets(ss[i], ops[i], id))
  }

  /** Before state `n`, an accepted push at step `k`; no accepted push and no forgetting after it. */
  predicate LastAcceptedAt(d: Deployment, ops: seq<Op>, ss: seq<State>, n: nat, id: string, e: L.Entry, k: nat)
    requires n <= |ops| < |ss|
  {
    LastPut(Puts(d, ops, ss, id), Drops(ops, ss, id), n, e, k)
  }

  /** At some step. */
  predicate EverAccepted(d: Deployment, ops: seq<Op>, ss: seq<State>, n: nat, id: string, e: L.Entry)
    requires n <= |ops| < |ss|
  {
    EverPut(Puts(d, ops, ss, id), Drops(ops, ss, id), n, e)
  }

  /** A cell that is set, cleared or left alone holds what was last put there, if not cleared since. */
  predicate Cell<T(==)>(mem: seq<Option<T>>, puts: seq<Option<T>>, drops: seq<bool>) {
    && |mem| == |puts| + 1 == |drops| + 1 && mem[0] == None
    && forall i :: 0 <= i < |puts| ==> mem[i + 1] == if puts[i].Some? then puts[i] else if drops[i] then None else mem[i]
  }

  predicate LastPut<T(==)>(puts: seq<Option<T>>, drops: seq<bool>, n: nat, e: T, k: nat)
    requires n <= |puts| == |drops|
  {
    k < n && puts[k] == Some(e) && forall j :: k < j < n ==> puts[j] == None && !drops[j]
  }

  predicate EverPut<T(==)>(puts: seq<Option<T>>, drops: seq<bool>, n: nat, e: T)
    requires n <= |puts| == |drops|
  {
    exists k | 0 <= k < n :: LastPut(puts, drops, n, e, k)
  }

  lemma {:induction false} CellHoldsLastPut<T>(mem: seq<Option<T>>, puts: seq<Option<T>>, drops: seq<bool>, n: nat, e: T)
    requires Cell(mem, puts, drops) && n <= |puts|
    ensures mem[n] == Some(e) <==> EverPut(puts, drops, n, e)
  {
    if n > 0 {
      var m := n - 1;
      CellHoldsLastPut(mem, puts, drops, m, e);
      assert mem[m + 1] == if puts[m].Some? then puts[m] else if drops[m] then None else mem[m];
      if puts[m] == Some(e) { assert LastPut(puts, drops, n, e, m); }
      if k: nat :| LastPut(puts, drops, m, e, k) {
        assert puts[m] == None && !drops[m] ==> LastPut(puts, drops, n, e, k);
      }
      if k: nat :| LastPut(puts, drops, n, e, k) {
        assert k < m ==> LastPut(puts, drops, m, e, k) && puts[m] == None && !drops[m];
      }
    }
  }

  lemma PushLatest(d: Deployment, s: State, q: Caller, body: Body, id: string)
    ensures Lookup(AfterPush(d, s, q, body).latest, id) ==
              match Brought(d, s, Push(q, body), id) case Some(e) => Some(e) case None => Lookup(s.latest, id)
  {
  }

  lemma EditLatest(d: Deployment, s: State, op: C.Op, id: string)
    requires id in s.latest ==> Enabled(s, id)
    ensures Lookup(AfterEdit(d, s, op).latest, id) == if Forgets(s, Edit(op), id) then None else Lookup(s.latest, id)
  {
  }

  lemma StepLatest(d: Deployment, s: State, op: Op, id: string)
    requires MemorySound(s)
    ensures Lookup(Next(d, s, op).latest, id) ==
              if Accepts(d, s, op, id) then Brought(d, s, op, id)
              else if Forgets(s, op, id) then None
              else Lookup(s.latest, id)
  {
    match op
    case Edit(o) => EditLatest(d, s, o, id);
    case Push(q, body) => PushLatest(d, s, q, body, id);
    case _ =>
  }

  /** In every run, what the gateway remembers of a probe is its last accepted push, at the gateway's
      own time, provided nothing has made it forget since. */
  lemma LatestIsLastAccepted(d: Deployment, ops: seq<Op>, ss: seq<State>, n: nat, id: string, e: L.Entry)
    requires IsRun(d, ops, ss) && n < |ss|
    ensures Lookup(ss[n].latest, id) == Some(e) <==> EverAccepted(d, ops, ss, n, id, e)
  {
    RememberedCell(d, ops, ss, id);
    CellHoldsLastPut(Remembered(ss, id), Puts(d, ops, ss, id), Drops(ops, ss, id), n, e);
  }

  function Remembered(ss: seq<State>, id: string): seq<Option<L.Entry>> {
    seq(|ss|, i requires 0 <= i < |ss| => Lookup(ss[i].latest, id))
  }

  lemma RememberedCell(d: Deployment, ops: seq<Op>, ss: seq<State>, id: string)
    requires IsRun(d, ops, ss)
    ensures Cell(Remembered(ss, id), Puts(d, ops, ss, id), Drops(ops, ss, id))
  {
    forall i: nat | i < |ops|
      ensures Lookup(ss[i + 1].latest, id) == if Brought(d, ss[i], ops[i], id).Some? then Brought(d, ss[i], ops[i], id)
                                              else if Forgets(ss[i], ops[i], id) then None else Lookup(ss[i].latest, id)
    {
      RunLatest(d, ops, ss, i, id);
    }
  }

  lemma RunLatest(d: Deployment, ops: seq<Op>, ss: seq<State>, i: nat, id: string)
    requires IsRun(d, ops, ss) && i < |ops|
    ensures Lookup(ss[i + 1].latest, id) == if Brought(d, ss[i], ops[i], id).Some? then Brought(d, ss[i], ops[i], id)
                                            else if Forgets(ss[i], ops[i], id) then None else Lookup(ss[i].latest, id)
  {
    EveryState(d, ops, ss, i);
    assert Taken(d, ops, ss, i);
    StepLatest(d, ss[i], ops[i], id);
  }

  /** The probe has existed and been enabled ever since. */
  lemma EnabledSince(d: Deployment, ops: seq<Op>, ss: seq<State>, n: nat, id: string, e: L.Entry, k: nat, j: nat)
    requires IsRun(d, ops, ss) && n < |ss| && LastAcceptedAt(d, ops, ss, n, id, e, k) && k < j <= n
    ensures Enabled(ss[j], id)
  {
    assert LastAcceptedAt(d, ops, ss, j, id, e, k);
    LatestIsLastAccepted(d, ops, ss, j, id, e);
    EveryState(d, ops, ss, j);
  }

  /** A refused push changes no table, no measurement and no other probe's allowance. */
  lemma RefusedChangesNothing(d: Deployment, s: State, q: Caller, body: Body, other: string)
    requires Answer(d, s, q, body) != None && Owner(d, s.catalog, q.token) != Some(other)
    ensures var s' := AfterPush(d, s, q, body);
            s' == s.(buckets := s'.buckets, failures := s'.failures) && Lookup(s'.buckets, other) == Lookup(s.buckets, other)
  {
  }

  /** In every run, every scrape is coherent and free of duplicates, whatever the time and threshold. */
  lemma EveryScrapeCoherent(d: Deployment, ops: seq<Op>, ss: seq<State>, n: nat, now: int, threshold: int)
    requires IsRun(d, ops, ss) && n < |ss|
    ensures var out := Scrape.Scraped(Scrape.View(ss[n].catalog.probes, ss[n].latest, now, threshold));
            Scrape.Coherent(out) && Scrape.NoRepeat(out)
  {
    EveryState(d, ops, ss, n);
    var v := Scrape.View(ss[n].catalog.probes, ss[n].latest, now, threshold);
    Scrape.SoundIsCoherent(v);
    Scrape.NoSeriesTwice(v);
  }

  // ----- The accepted cycle is never throttled -------------------------------------------

  /** Step `j` is a push of probe `id` that reaches its bucket. */
  predicate OwnPush(d: Deployment, ops: seq<Op>, ss: seq<State>, id: string, j: nat)
    requires j < |ops| < |ss|
  {
    ops[j].Push? && ReachesAs(d, ss[j], ops[j].q, id)
  }

  lemma StepBucket(d: Deployment, s: State, op: Op, id: string)
    requires id in Next(d, s, op).buckets
    ensures (id in s.buckets && Next(d, s, op).buckets[id] == s.buckets[id])
            || (op.Push? && ReachesAs(d, s, op.q, id) && Next(d, s, op).buckets[id].last == op.q.at)
  {
    if op.Push? && Reaches(d, s, op.q) { B.CapCoversOne(d.limit); }
  }

  /** A bucket was last spent from at one of the probe's own pushes. */
  lemma {:induction false} SpentAtOwnPush(d: Deployment, ops: seq<Op>, ss: seq<State>, id: string, n: nat) returns (i: nat)
    requires IsRun(d, ops, ss) && n < |ss| && id in ss[n].buckets
    ensures i < n && OwnPush(d, ops, ss, id, i) && ss[n].buckets[id].last == ops[i].q.at
  {
    assert n > 0;
    assert Taken(d, ops, ss, n - 1);
    StepBucket(d, ss[n - 1], ops[n - 1], id);
    if id in ss[n - 1].buckets && ss[n].buckets[id] == ss[n - 1].buckets[id] {
      i := SpentAtOwnPush(d, ops, ss, id, n - 1);
    } else {
      i := n - 1;
    }
  }

  /** The gateway's clock does not go back for this probe, and from step `m` on its pushes keep their distance. */
  predicate Paced(d: Deployment, ops: seq<Op>, ss: seq<State>, id: string, m: nat, gap: nat)
    requires |ops| < |ss|
  {
    forall i: nat, j: nat :: i < j < |ops| && OwnPush(d, ops, ss, id, i) && OwnPush(d, ops, ss, id, j) ==>
      ops[i].q.at + (if m <= i then gap else 0) <= ops[j].q.at
  }

  lemma RestedAdmits(p: B.Params, b: B.Bucket, at: int)
    requires b.last + p.interval <= at
    ensures B.Admits(p, b, at)
  {
    B.CapCoversOne(p);
  }

  /** In every run: once a probe's pushes come a cycle apart, the cycle one the settings form accepted
      under a whole-millisecond limit, every one after the first finds its allowance, whatever the
      bucket held and whatever edits, restarts and other probes' pushes come in between. */
  lemma CycleNeverThrottled(
      d: Deployment, ops: seq<Op>, ss: seq<State>, id: string, form: FullForm, m: nat, j: nat, k: nat)
    requires IsRun(d, ops, ss) && m <= j < k < |ops| && OwnPush(d, ops, ss, id, j) && OwnPush(d, ops, ss, id, k)
    requires S.Submit(d.limit.interval, form).Accepted? && d.limit.interval % S.NS_PER_MS == 0
    requires Paced(d, ops, ss, id, m, S.Submit(d.limit.interval, form).config.intervalMS * S.NS_PER_MS)
    ensures Admitted(d, ss[k], id, ops[k].q.at)
  {
    var gap := S.Submit(d.limit.interval, form).config.intervalMS * S.NS_PER_MS;
    assert gap >= d.limit.interval;
    if id in ss[k].buckets {
      var i := SpentAtOwnPush(d, ops, ss, id, k);
      assert ops[i].q.at <= ops[k].q.at && ops[j].q.at + gap <= ops[k].q.at;
      assert i < j ==> ops[i].q.at <= ops[j].q.at;
      RestedAdmits(d.limit, ss[k].buckets[id], ops[k].q.at);
    } else {
      B.CapCoversOne(d.limit);
    }
  }

  lemma VerdictNeverBars(r: PushRequest, al: Allowlist, current: string)
    ensures V.Verdict(r, al, current).Some? ==> V.Verdict(r, al, current).value.code !in {RateLimited, Unauthorized, ProbeDisabled}
  {
    V.VerdictCodes(r, al, current);
  }

  /** With one request at a time a charge never finds the budget spent. */
  lemma ChargeAfterPeek(s: State, q: Caller)
    requires !Blocked(s, q)
    ensures A.ChargeAllowed(A.Peek(s.failures, q.ip, q.at), q.ip, q.at)
  {
    B.CapCoversOne(A.BUDGET);
  }

  /** "Too many requests" is answered to a probe exactly when its address is blocked or its allowance is spent. */
  lemma ThrottledIff(d: Deployment, s: State, q: Caller, id: string, r: PushRequest)
    requires Owner(d, s.catalog, q.token) == Some(id) && Enabled(s, id)
    ensures Answer(d, s, q, Sent(r)) == Some(RATE_LIMITED) <==> Blocked(s, q) || !Admitted(d, s, id, q.at)
  {
    VerdictNeverBars(r, TS.Allowed(s.tables), Current(d, s).id);
  }

  function CodeOf(e: Option<Error>): Option<Code> { match e case Some(x) => Some(x.code) case None => None }

  /** Who is turned away, and why, before validation: a missing token, a bad one from an address that is not
      blocked; a blocked address or a spent allowance; a probe that is switched off. */
  lemma BarredIff(d: Deployment, s: State, q: Caller, r: PushRequest)
    ensures var code, owner := CodeOf(Answer(d, s, q, Sent(r))), Owner(d, s.catalog, q.token);
            && (code == Some(Unauthorized) <==> q.token == "" || (!Blocked(s, q) && owner == None))
            && (code == Some(ProbeDisabled) <==> owner.Some? && !Blocked(s, q) && !Enabled(s, owner.value))
            && (code == Some(RateLimited) <==>
                  q.token != "" && (Blocked(s, q) || (owner.Some? && Enabled(s, owner.value) && !Admitted(d, s, owner.value, q.at))))
  {
    VerdictNeverBars(r, TS.Allowed(s.tables), Current(d, s).id);
    if !Blocked(s, q) { ChargeAfterPeek(s, q); }
  }

  /** A body that does not decode is answered with the decoder's error, if the request gets that far. */
  lemma MalformedIff(d: Deployment, s: State, q: Caller, id: string, e: Error)
    requires Owner(d, s.catalog, q.token) == Some(id) && Enabled(s, id) && e.code !in {RateLimited, Unauthorized, ProbeDisabled}
    ensures Answer(d, s, q, Malformed(e)) == Some(e) <==> !Blocked(s, q) && Admitted(d, s, id, q.at)
  {
  }

  // ----- How much one probe can push -----------------------------------------------------

  /** A bucket changes at the probe's own pushes and goes when the gateway forgets the probe, and not otherwise. */
  lemma BucketSteps(d: Deployment, s: State, op: Op, id: string)
    requires id in s.buckets ==> Enabled(s, id)
    ensures op.Push? && ReachesAs(d, s, op.q, id) ==>
              Lookup(Next(d, s, op).buckets, id) == Some(B.Spend(d.limit, B.BucketOf(d.limit, s.buckets, id, op.q.at), op.q.at))
    ensures Forgets(s, op, id) ==> id !in Next(d, s, op).buckets
    ensures !Forgets(s, op, id) && !(op.Push? && ReachesAs(d, s, op.q, id)) ==> Lookup(Next(d, s, op).buckets, id) == Lookup(s.buckets, id)
  {
    match op
    case Edit(o) =>
    case Push(q, body) =>
    case _ =>
  }

  /** How many of the probe's pushes from step `m` to step `n` found their allowance. */
  function Admissions(d: Deployment, ops: seq<Op>, ss: seq<State>, id: string, m: nat, n: nat): nat
    requires m <= n <= |ops| < |ss|
  {
    if n == m then 0
    else Admissions(d, ops, ss, id, m, n - 1)
         + if OwnPush(d, ops, ss, id, n - 1) && Admitted(d, ss[n - 1], id, ops[n - 1].q.at) then 1 else 0
  }

  /** The time of its last push before step `n`, or `start`. */
  function LastPush(d: Deployment, ops: seq<Op>, ss: seq<State>, id: string, m: nat, n: nat, start: int): int
    requires m <= n <= |ops| < |ss|
  {
    if n == m then start
    else if OwnPush(d, ops, ss, id, n - 1) then ops[n - 1].q.at
    else LastPush(d, ops, ss, id, m, n - 1, start)
  }

  /** From step `m` to step `n` the gateway never forgets the probe, and its pushes come in order between the two times. */
  predicate Window(d: Deployment, ops: seq<Op>, ss: seq<State>, id: string, m: nat, n: nat, start: int, end: int)
    requires m <= n <= |ops| < |ss|
  {
    && start <= end && (forall j :: m <= j < n ==> !Forgets(ss[j], ops[j], id))
    && forall j: nat :: m <= j < n && OwnPush(d, ops, ss, id, j) ==>
         LastPush(d, ops, ss, id, m, j, start) <= ops[j].q.at <= end
  }

  function CreditAt(d: Deployment, s: State, id: string, now: int): nat { B.Level(d.limit, B.BucketOf(d.limit, s.buckets, id, now), now) }

  /** One step moves credit no further than time and cost allow. */
  lemma CreditStep(d: Deployment, s: State, op: Op, id: string, now: int, t: int)
    requires id in s.buckets ==> Enabled(s, id)
    requires !Forgets(s, op, id) && now <= t
    requires if op.Push? && ReachesAs(d, s, op.q, id) then t == op.q.at else t == now
    ensures CreditAt(d, Next(d, s, op), id, t)
            + (if op.Push? && ReachesAs(d, s, op.q, id) && Admitted(d, s, id, op.q.at) then d.limit.interval else 0)
            <= CreditAt(d, s, id, now) + (t - now)
  {
    BucketSteps(d, s, op, id);
    if op.Push? && ReachesAs(d, s, op.q, id) { B.SpendConserves(d.limit, B.BucketOf(d.limit, s.buckets, id, t), now, t); }
  }

  lemma TakenCredit(d: Deployment, ops: seq<Op>, ss: seq<State>, id: string, j: nat, now: int, t: int)
    requires IsRun(d, ops, ss) && j < |ops| && !Forgets(ss[j], ops[j], id) && now <= t
    requires if OwnPush(d, ops, ss, id, j) then t == ops[j].q.at else t == now
    ensures CreditAt(d, ss[j + 1], id, t)
            + (if OwnPush(d, ops, ss, id, j) && Admitted(d, ss[j], id, ops[j].q.at) then d.limit.interval else 0)
            <= CreditAt(d, ss[j], id, now) + (t - now)
  {
    EveryState(d, ops, ss, j);
    assert Taken(d, ops, ss, j);
    CreditStep(d, ss[j], ops[j], id, now, t);
  }

  lemma WindowTail(d: Deployment, ops: seq<Op>, ss: seq<State>, id: string, m: nat, n: nat, start: int, end: int)
    requires m < n <= |ops| < |ss| && Window(d, ops, ss, id, m, n, start, end)
    ensures Window(d, ops, ss, id, m, n - 1, start, end) && !Forgets(ss[n - 1], ops[n - 1], id)
    ensures OwnPush(d, ops, ss, id, n - 1) ==> LastPush(d, ops, ss, id, m, n - 1, start) <= ops[n - 1].q.at <= end
  {
  }

  /** Between `start` and the probe's last push, its admissions are paid for. */
  predicate PaidFor(d: Deployment, ops: seq<Op>, ss: seq<State>, id: string, m: nat, n: nat, start: int, last: int)
    requires m <= n <= |ops| < |ss|
  {
    CreditAt(d, ss[n], id, last) + Admissions(d, ops, ss, id, m, n) * d.limit.interval <= CreditAt(d, ss[m], id, start) + (last - start)
  }

  lemma PaidForStep(d: Deployment, ops: seq<Op>, ss: seq<State>, id: string, m: nat, n: nat, start: int, last: int, t: int)
    requires IsRun(d, ops, ss) && m < n < |ss| && !Forgets(ss[n - 1], ops[n - 1], id) && last <= t
    requires if OwnPush(d, ops, ss, id, n - 1) then t == ops[n - 1].q.at else t == last
    requires PaidFor(d, ops, ss, id, m, n - 1, start, last)
    ensures PaidFor(d, ops, ss, id, m, n, start, t)
  {
    OneStepMore(d, ops, ss, id, n - 1, Admissions(d, ops, ss, id, m, n - 1), CreditAt(d, ss[m], id, start), start, last, t);
  }

  lemma {:induction false} PushesWithinCredit(
      d: Deployment, ops: seq<Op>, ss: seq<State>, id: string, m: nat, n: nat, start: int, end: int)
    requires IsRun(d, ops, ss) && m <= n < |ss| && Window(d, ops, ss, id, m, n, start, end)
    ensures start <= LastPush(d, ops, ss, id, m, n, start) <= end
    ensures PaidFor(d, ops, ss, id, m, n, start, LastPush(d, ops, ss, id, m, n, start))
    decreases n
  {
    if n > m {
      WindowTail(d, ops, ss, id, m, n, start, end);
      PushesWithinCredit(d, ops, ss, id, m, n - 1, start, end);
      PaidForStep(d, ops, ss, id, m, n, start, LastPush(d, ops, ss, id, m, n - 1, start), LastPush(d, ops, ss, id, m, n, start));
    }
  }

  lemma Accumulated(p: B.Params, one: nat, count: nat, before: nat, between: nat, after: nat, first: int, second: int)
    requires one <= 1 && between + count * p.interval <= before + first
    requires after + (if one == 1 then p.interval else 0) <= between + second
    ensures after + (count + one) * p.interval <= before + (first + second)
  {
    B.OneMore(count, p.interval);
  }

  lemma OneStepMore(
      d: Deployment, ops: seq<Op>, ss: seq<State>, id: string, j: nat, count: nat, before: nat, start: int, now: int, t: int)
    requires IsRun(d, ops, ss) && j < |ops| && !Forgets(ss[j], ops[j], id) && now <= t
    requires if OwnPush(d, ops, ss, id, j) then t == ops[j].q.at else t == now
    requires CreditAt(d, ss[j], id, now) + count * d.limit.interval <= before + (now - start)
    ensures var one := if OwnPush(d, ops, ss, id, j) && Admitted(d, ss[j], id, ops[j].q.at) then 1 else 0;
            CreditAt(d, ss[j + 1], id, t) + (count + one) * d.limit.interval <= before + (t - start)
  {
    TakenCredit(d, ops, ss, id, j, now, t);
    Accumulated(d.limit, if OwnPush(d, ops, ss, id, j) && Admitted(d, ss[j], id, ops[j].q.at) then 1 else 0, count, before,
                CreditAt(d, ss[j], id, now), CreditAt(d, ss[j + 1], id, t), now - start, t - now);
  }

  /** In every run and any window in which the gateway does not forget the probe, its pushes find an
      allowance at most `burst` times plus once per interval. */
  lemma PushBound(d: Deployment, ops: seq<Op>, ss: seq<State>, id: string, m: nat, n: nat, start: int, end: int)
    requires IsRun(d, ops, ss) && m <= n < |ss| && Window(d, ops, ss, id, m, n, start, end)
    ensures Admissions(d, ops, ss, id, m, n) <= d.limit.burst + (end - start) / d.limit.interval
  {
    PushesWithinCredit(d, ops, ss, id, m, n, start, end);
    B.WithinBound(d.limit, Admissions(d, ops, ss, id, m, n), CreditAt(d, ss[m], id, start), end - start);
  }

  // ----- Authentication is one undisturbed request of the throttle -----------------------

  /** What the throttle's own machine does when peek, lookup and charge of one request follow each other. */
  lemma GateIsOneRequest(d: Deployment, s: State, q: Caller)
    requires q.token != "" && LegalVictim(d, s, q)
    ensures var t0 := A.State(s.failures, map[]);
            var peek := A.PeekFor(0, q.ip, q.at);
            var t1 := A.Next(t0, peek);
            if A.AnswerOf(t0, peek) == A.Throttled then Gate(d, s, q) == Some(RATE_LIMITED) && t1.failures == AfterGate(d, s, q)
            else
              var lookup := A.Lookup(0, q.at, Owner(d, s.catalog, q.token).Some?);
              && A.Enabled(t1, lookup)
              && var t2 := A.Next(t1, lookup);
                 if A.AnswerOf(t1, lookup) == A.Authenticated then Gate(d, s, q) == None && t2.failures == AfterGate(d, s, q)
                 else
                   var charge := A.ChargeFor(0, q.at, q.victim);
                   && A.Enabled(t2, charge) && A.Next(t2, charge).failures == AfterGate(d, s, q)
                   && A.AnswerOf(t2, charge) == A.Answer.Unauthorized && Gate(d, s, q) == Some(UNAUTHORIZED)
  {
    if !Blocked(s, q) { ChargeAfterPeek(s, q); }
  }

  // ----- Valid traffic is never charged --------------------------------------------------

  /** The step looks up a bad token that came from `ip`. */
  predicate Guesses(d: Deployment, s: State, op: Op, ip: string) {
    (op.Fetch? || op.Push?) && op.q.ip == ip && Guessed(d, s, op.q)
  }

  function BadTokens(d: Deployment, ops: seq<Op>, ss: seq<State>, ip: string, n: nat): nat
    requires n <= |ops| < |ss|
  {
    if n == 0 then 0 else BadTokens(d, ops, ss, ip, n - 1) + if Guesses(d, ss[n - 1], ops[n - 1], ip) then 1 else 0
  }

  lemma StepFailures(d: Deployment, s: State, op: Op)
    ensures Next(d, s, op).failures ==
              if op.Fetch? || op.Push? then AfterGate(d, s, op.q)
              else if op.Edit? && op.op.Restart? then map[] else s.failures
  {
    match op
    case Fetch(q) =>
    case Push(q, body) =>
    case _ =>
  }

  /** The budget an address has left, at least what its bad tokens have not used up. */
  predicate Budgeted(m: A.Entries, ip: string, guesses: nat) {
    ip in m ==> guesses > 0 && m[ip].bucket.credit + guesses * A.COST >= A.BURST * A.COST
  }

  lemma GateBudgeted(d: Deployment, s: State, q: Caller, ip: string, guesses: nat)
    requires Budgeted(s.failures, ip, guesses)
    ensures Budgeted(AfterGate(d, s, q), ip, guesses + if q.ip == ip && Guessed(d, s, q) then 1 else 0)
  {
  }

  lemma {:induction false} RunBudgeted(d: Deployment, ops: seq<Op>, ss: seq<State>, ip: string, n: nat)
    requires IsRun(d, ops, ss) && n < |ss|
    ensures Budgeted(ss[n].failures, ip, BadTokens(d, ops, ss, ip, n))
  {
    if n > 0 {
      var s, op := ss[n - 1], ops[n - 1];
      RunBudgeted(d, ops, ss, ip, n - 1);
      assert Taken(d, ops, ss, n - 1);
      StepFailures(d, s, op);
      if op.Fetch? || op.Push? { GateBudgeted(d, s, op.q, ip, BadTokens(d, ops, ss, ip, n - 1)); }
    }
  }

  /** In every run an address is tracked only if a bad token has come from it, and blocked only after
      twenty: valid traffic is never charged, so it can never throttle itself. */
  lemma BlockedOnlyByGuesses(d: Deployment, ops: seq<Op>, ss: seq<State>, n: nat, q: Caller)
    requires IsRun(d, ops, ss) && n < |ss|
    ensures q.ip in ss[n].failures ==> BadTokens(d, ops, ss, q.ip, n) > 0
    ensures Blocked(ss[n], q) ==> BadTokens(d, ops, ss, q.ip, n) >= 20
  {
    RunBudgeted(d, ops, ss, q.ip, n);
  }

  /** So an obedient probe whose address has sent fewer than twenty bad tokens hears "too many requests"
      from its own allowance only. */
  lemma ObedientBehindCleanAddress(
      d: Deployment, ops: seq<Op>, ss: seq<State>, n: nat, q: Caller, id: string, r: PushRequest)
    requires IsRun(d, ops, ss) && n < |ss| && BadTokens(d, ops, ss, q.ip, n) < 20
    requires Owner(d, ss[n].catalog, q.token) == Some(id) && Enabled(ss[n], id)
    requires id in ss[n].held && Obeys(ss[n].held[id], r) && ToldApart(d, ss[n], ss[n].held[id])
    ensures Answer(d, ss[n], q, Sent(r)) ==
              if !Admitted(d, ss[n], id, q.at) then Some(RATE_LIMITED)
              else if Unchanged(ss[n], ss[n].held[id]) then None
              else Some(STALE)
  {
    BlockedOnlyByGuesses(d, ops, ss, n, q);
    ObedientProbeInEveryRun(d, ops, ss, n, q, id, r);
  }

  lemma GateBounded(d: Deployment, s: State, op: Op)
    requires (op.Fetch? || op.Push?) && Legal(d, s, op) && |s.failures| <= A.MAX_TRACKED
    ensures |AfterGate(d, s, op.q)| <= A.MAX_TRACKED
  {
    var q := op.q;
    A.SizeKept(s.failures, A.Peeked(q.ip, q.at));
    if Guessed(d, s, q) { A.SizeKept(A.Peek(s.failures, q.ip, q.at), A.Charged(q.ip, q.at, q.victim)); }
  }

  /** In every run the throttle tracks at most 10000 addresses. */
  lemma {:induction false} EveryThrottleBounded(d: Deployment, ops: seq<Op>, ss: seq<State>, n: nat)
    requires IsRun(d, ops, ss) && n < |ss|
    ensures |ss[n].failures| <= 10000
  {
    if n > 0 {
      EveryThrottleBounded(d, ops, ss, n - 1);
      assert Taken(d, ops, ss, n - 1);
      StepFailures(d, ss[n - 1], ops[n - 1]);
      if ops[n - 1].Fetch? || ops[n - 1].Push? { GateBounded(d, ss[n - 1], ops[n - 1]); }
    }
  }
}
