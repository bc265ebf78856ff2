/** The request handlers, over the stores, the limiter and the memory they share. */
module Handlers {
  import opened Wire
  import opened Gateway
  import C = Catalog
  import TS = TargetStore
  import S = Settings
  import B = Buckets
  import A = AuthThrottle
  import opened Order
  import V = Validation
  import L = Latest
  import Identity

  /** The token of an Authorization header; "" if it is missing or malformed. */
  function TokenOf(header: string): string { if A.BEARER < header then header[|A.BEARER|..] else "" }

  function Refusal(outcome: A.Outcome): Option<Error> {
    match outcome
    case Malformed => Some(UNAUTHORIZED)
    case BlockedEarly => Some(RATE_LIMITED)
    case BadToken => Some(UNAUTHORIZED)
    case ThrottledLate => Some(RATE_LIMITED)
    case Resolved(_) => None
  }

  lemma OutcomeIsGate(d: Deployment, s: State, q: Caller, outcome: A.Outcome)
    requires q.token == "" <==> outcome == A.Malformed
    requires q.token != "" ==>
               outcome == if Blocked(s, q) then A.BlockedEarly
                          else if Owner(d, s.catalog, q.token) != None then A.Resolved(q.token) else A.BadToken
    requires outcome == A.BadToken ==> A.ChargeAllowed(A.Peek(s.failures, q.ip, q.at), q.ip, q.at)
    ensures Refusal(outcome) == Gate(d, s, q)
  {
  }

  class Server {
    const deployment: Deployment
    const catalog: C.Store
    const targets: TS.Store
    const limiter: B.Limiter
    const failures: A.FailureLimiter
    const latest: L.Store
    var setting: Option<Config>

    /** The gateway's half of the state. What probes hold is not kept here. */
    function View(): State
      reads this, catalog, targets, limiter, failures, latest
    {
      State(catalog.Value(), targets.Db(), setting, latest.entries, limiter.buckets, failures.failures, map[])
    }

    predicate Wired() { limiter.params == deployment.limit }

    /** Starting over the database as it is, with nothing in memory. */
    constructor (d: Deployment, c: C.Store, t: TS.Store, stored: Option<Config>)
      ensures Wired() && deployment == d && catalog == c && targets == t && fresh(limiter) && fresh(failures) && fresh(latest)
      ensures View() == State(c.Value(), t.Db(), stored, map[], map[], map[], map[])
    {
      deployment, catalog, targets, setting := d, c, t, stored;
      limiter := new B.Limiter(d.limit);
      failures := new A.FailureLimiter();
      latest := new L.Store();
    }

    // ----- Authentication ----------------------------------------------------------------

    /** `order` is the order in which an eviction scan would visit the tracked addresses. */
    method Authenticate(header: string, ip: string, at: int, order: seq<string>)
      returns (id: Option<string>, err: Option<Error>, ghost q: Caller)
      requires Elements(order) == failures.failures.Keys
      modifies failures
      ensures q.ip == ip && q.token == TokenOf(header) && q.at == at && LegalVictim(deployment, old(View()), q)
      ensures err == Gate(deployment, old(View()), q) && (err == None ==> id == Owner(deployment, catalog.Value(), q.token))
      ensures View() == old(View()).(failures := AfterGate(deployment, old(View()), q))
    {
      var d, c := deployment, catalog.Value();
      var outcome;
      ghost var victim;
      outcome, victim := A.Authenticate(failures, header, ip, token => Owner(d, c, token) != None, at, at, order);
      q := Caller(ip, TokenOf(header), at, victim);
      OutcomeIsGate(d, old(View()), q, outcome);
      id, err := if outcome.Resolved? then Owner(d, c, outcome.token) else None, Refusal(outcome);
    }

    // ----- The push endpoint -------------------------------------------------------------

    /** `dispatchRows` is what the database answers the dispatch query with. */
    method CurrentID(dispatchRows: seq<TS.JoinRow>) returns (current: Fetched)
      requires TS.IsDispatchJoin(targets.Db(), dispatchRows)
      ensures current == Current(deployment, View())
    {
      var list := targets.DispatchTargets(dispatchRows);
      var entries := DispatchEntries(list);
      var config := S.InForce(setting);
      var id := Identity.ConfigID(deployment.h, config, entries, list);
      current := Fetched(config, id, list);
    }

    method Judge(r: PushRequest, visits: V.Visits, allowRows: seq<(string, string)>, dispatchRows: seq<TS.JoinRow>)
      returns (err: Option<Error>)
      requires V.VisitsOf(visits, r.results)
      requires TS.IsAllowJoin(targets.Db(), allowRows) && TS.IsDispatchJoin(targets.Db(), dispatchRows)
      ensures err == V.Verdict(r, TS.Allowed(targets.Db()), Current(deployment, View()).id)
    {
      var al := targets.Allowlist(allowRows);
      var current := CurrentID(dispatchRows);
      err := V.Validate(r, al, current.id, visits);
    }

    /** Decode, validate, accept. */
    method HandleAdmitted(id: string, body: Body, at: int, visits: V.Visits,
                          allowRows: seq<(string, string)>, dispatchRows: seq<TS.JoinRow>) returns (err: Option<Error>)
      requires body.Sent? ==> V.VisitsOf(visits, body.request.results)
      requires TS.IsAllowJoin(targets.Db(), allowRows) && TS.IsDispatchJoin(targets.Db(), dispatchRows)
      modifies latest
      ensures err == Judged(deployment, old(View()), body)
      ensures latest.entries == if err == None then old(latest.entries)[id := L.Entry(body.request.results, at)] else old(latest.entries)
    {
      if body.Malformed? {
        return Some(body.error);
      }
      err := Judge(body.request, visits, allowRows, dispatchRows);
      if err == None {
        latest.Put(id, body.request.results, at);
      }
    }

    /** What follows once the probe is known: authorise, limit, then the rest. */
    method HandleKnown(id: string, body: Body, at: int, visits: V.Visits,
                       allowRows: seq<(string, string)>, dispatchRows: seq<TS.JoinRow>) returns (err: Option<Error>)
      requires body.Sent? ==> V.VisitsOf(visits, body.request.results)
      requires Wired() && TS.IsAllowJoin(targets.Db(), allowRows) && TS.IsDispatchJoin(targets.Db(), dispatchRows)
      modifies limiter, latest
      ensures err == AnswerKnown(deployment, old(View()), id, body, at)
      ensures View() == AfterKnown(deployment, old(View()), id, body, at)
    {
      if id !in catalog.probes || !catalog.probes[id].enabled {
        return Some(DISABLED);
      }
      var ok := limiter.Allow(id, at);
      if !ok {
        return Some(RATE_LIMITED);
      }
      err := HandleAdmitted(id, body, at, visits, allowRows, dispatchRows);
    }

    /** Authenticate, authorise, limit, decode, validate, accept: in that order. */
    method HandlePush(header: string, ip: string, body: Body, at: int, order: seq<string>, visits: V.Visits,
                      allowRows: seq<(string, string)>, dispatchRows: seq<TS.JoinRow>) returns (err: Option<Error>, ghost q: Caller)
      requires body.Sent? ==> V.VisitsOf(visits, body.request.results)
      requires Wired() && TS.IsAllowJoin(targets.Db(), allowRows) && TS.IsDispatchJoin(targets.Db(), dispatchRows)
      requires Elements(order) == failures.failures.Keys
      modifies failures, limiter, latest
      ensures q.ip == ip && q.token == TokenOf(header) && q.at == at && LegalVictim(deployment, old(View()), q)
      ensures err == Answer(deployment, old(View()), q, body)
      ensures View() == AfterPush(deployment, old(View()), q, body)
    {
      var id;
      id, err, q := Authenticate(header, ip, at, order);
      if err == None {
        err := HandleKnown(id.value, body, at, visits, allowRows, dispatchRows);
      }
    }

    // ----- The target list ---------------------------------------------------------------

    /** Served to any enabled probe; only the authentication throttle is involved. */
    method HandleTargets(header: string, ip: string, at: int, order: seq<string>, dispatchRows: seq<TS.JoinRow>)
      returns (response: Option<Fetched>, ghost q: Caller)
      requires TS.IsDispatchJoin(targets.Db(), dispatchRows) && Elements(order) == failures.failures.Keys
      modifies failures
      ensures q.ip == ip && q.token == TokenOf(header) && q.at == at && LegalVictim(deployment, old(View()), q)
      ensures response == Served(deployment, old(View()), q)
      ensures View() == AfterFetch(deployment, old(View()), q).(held := map[])
    {
      var id, err;
      id, err, q := Authenticate(header, ip, at, order);
      if err != None || id.value !in catalog.probes || !catalog.probes[id.value].enabled {
        return None, q;
      }
      var current := CurrentID(dispatchRows);
      response := Some(current);
    }

    // ----- The administrator's probe actions ---------------------------------------------

    method HandleProbeToggle(id: string)
      modifies catalog, limiter, latest
      ensures View() == Next(deployment, old(View()), Edit(C.ProbeToggle(id)))
    {
      if id !in catalog.probes {
        return;
      }
      var was := catalog.probes[id].enabled;
      var err := catalog.SetProbeEnabled(id, !was);
      if was {
        limiter.Remove(id);
        latest.Delete(id);
      }
    }

    method HandleProbeDelete(id: string)
      modifies catalog, limiter, latest
      ensures View() == Next(deployment, old(View()), Edit(C.ProbeDelete(id)))
    {
      var err := catalog.DeleteProbe(id);
      if err != None {
        return;
      }
      latest.Delete(id);
      limiter.Remove(id);
    }

    method HandleProbeRotate(id: string, tokenHash: string)
      modifies catalog
      ensures View() == Next(deployment, old(View()), Edit(C.ProbeRotate(id, tokenHash)))
    {
      var err := catalog.UpdateProbeToken(id, tokenHash);
    }

    // ----- Settings ----------------------------------------------------------------------

    method HandleSettingsSave(form: FullForm) returns (fault: Option<S.Fault>)
      modifies `setting
      ensures View() == Next(deployment, old(View()), SettingsSave(form))
      ensures fault.Some? ==> setting == old(setting)
    {
      var r := S.ConfigFromForm(deployment.limit.interval, form);
      if r.Rejected? {
        return Some(r.fault);
      }
      setting := Some(r.config);
      fault := None;
    }

    method HandleSettingsReset()
      modifies `setting
      ensures View() == Next(deployment, old(View()), SettingsReset)
    {
      setting := None;
    }
  }

  /** The rows as the shape that is both served and hashed. */
  method DispatchEntries(list: seq<Target>) returns (entries: array<Identity.Slice>)
    ensures entries.Length == |list|
    ensures forall k :: 0 <= k < |list| ==> list[k] == Target(entries[k].id, entries[k].address, entries[k].types[..])
  {
    var out: seq<Identity.Slice> := [];
    for i := 0 to |list|
      invariant |out| == i
      invariant forall k :: 0 <= k < i ==> list[k] == Target(out[k].id, out[k].address, out[k].types[..])
    {
      var list_i := list[i].types;
      var types := new string[|list_i|](k requires 0 <= k < |list_i| => list_i[k]);
      assert types[..] == list_i;
      out := out + [Identity.Slice(list[i].id, list[i].address, types)];
    }
    entries := new Identity.Slice[|out|](k requires 0 <= k < |out| => out[k]);
  }
}
