/** Request validation: what a push must satisfy, and which fault a faulty push is answered with. */
module Validation {
  import opened Wire
  import opened Order
  import Text

  const VERSION := 1
  const MAX_PROBE_VERSION_LEN := 32
  const MAX_CONFIG_ID_LEN := 64
  const LOSS_TOLERANCE: real := 0.001
  const TOTAL_LOSS_TOLERANCE: real := 0.000001

  const NO_MEASUREMENTS := "results must contain at least one measurement"

  function Bad(message: string): Option<Error> { Some(Error(InvalidPayload, message)) }

  // ----- Single measurements -------------------------------------------------------------

  predicate NonNegative(f: Float) { f.Fin? && f.v >= 0.0 }

  function Abs(r: real): real { if r < 0.0 then -r else r }

  function LossOf(m: ICMPResult): real
    requires m.sent > 0
  {
    (m.sent - m.received) as real / m.sent as real
  }

  predicate WellFormedLoss(m: ICMPResult) {
    && 0 < m.sent && 0 <= m.received <= m.sent
    && m.loss.Fin? && 0.0 <= m.loss.v <= 1.0 && Abs(m.loss.v - LossOf(m)) <= LOSS_TOLERANCE
    && (m.received > 0 ==> Abs(m.loss.v - 1.0) > TOTAL_LOSS_TOLERANCE)
  }

  predicate WellFormedReplies(m: ICMPResult) {
    && (m.success <==> m.received != 0)
    && (m.success <==> m.minRTT.Some?) && (m.success <==> m.avgRTT.Some?) && (m.success <==> m.maxRTT.Some?)
    && (m.success ==> && NonNegative(m.minRTT.value) && m.avgRTT.value.Fin? && m.maxRTT.value.Fin?
                      && m.minRTT.value.v <= m.avgRTT.value.v <= m.maxRTT.value.v)
    && (m.jitter.Some? ==> m.success && NonNegative(m.jitter.value))
  }

  /** Sections 7 to 9 of the protocol. */
  predicate WellFormedICMP(m: ICMPResult) { WellFormedLoss(m) && WellFormedReplies(m) }

  function ValidateICMP(m: ICMPResult): (e: Option<Error>)
    ensures e == None <==> WellFormedICMP(m)
    ensures e.Some? ==> e.value.code == InvalidPayload
  {
    if m.sent <= 0 then Bad("icmp sent must be greater than zero")
    else if m.received < 0 || m.received > m.sent then Bad("icmp received must be between zero and sent")
    else if !m.loss.Fin? || m.loss.v < 0.0 || m.loss.v > 1.0 then Bad("icmp loss_ratio must be between zero and one")
    else if Abs(m.loss.v - LossOf(m)) > LOSS_TOLERANCE then Bad("icmp loss_ratio does not match sent and received")
    else if Abs(m.loss.v - 1.0) <= TOTAL_LOSS_TOLERANCE && m.received != 0 then Bad("icmp loss_ratio of 1 requires no replies received")
    else ValidateReplies(m)
  }

  /** The part of the ICMP rules about success, round-trip times and jitter. */
  function ValidateReplies(m: ICMPResult): (e: Option<Error>)
    ensures e == None <==> WellFormedReplies(m)
    ensures e.Some? ==> e.value.code == InvalidPayload
  {
    if m.received == 0 then
      if m.success then Bad("icmp success must be false when no reply was received")
      else if m.minRTT.Some? || m.avgRTT.Some? || m.maxRTT.Some? || m.jitter.Some? then
        Bad("icmp rtt fields must be null when no reply was received")
      else None
    else if !m.success then Bad("icmp success must be true when a reply was received")
    else if m.minRTT.None? || m.avgRTT.None? || m.maxRTT.None? then Bad("icmp rtt fields are required when a reply was received")
    else
      var lo, mid, hi := m.minRTT.value, m.avgRTT.value, m.maxRTT.value;
      if !lo.Fin? || !mid.Fin? || !hi.Fin? then Bad("icmp rtt must be a finite number")
      else if lo.v < 0.0 || mid.v < 0.0 || hi.v < 0.0 then Bad("icmp rtt must not be negative")
      else if lo.v > mid.v || mid.v > hi.v then Bad("icmp rtt must satisfy min <= avg <= max")
      else if m.jitter.Some? && !m.jitter.value.Fin? then Bad("icmp jitter must be a finite number")
      else if m.jitter.Some? && m.jitter.value.v < 0.0 then Bad("icmp jitter must not be negative")
      else None
  }

  /** Section 10 of the protocol. */
  predicate WellFormedDNS(m: DNSResult) {
    (m.success <==> m.duration.Some?) && (m.success ==> NonNegative(m.duration.value))
  }

  function ValidateDNS(m: DNSResult): (e: Option<Error>)
    ensures e == None <==> WellFormedDNS(m)
    ensures e.Some? ==> e.value.code == InvalidPayload
  {
    if m.success then
      if m.duration.None? then Bad("dns duration is required on success")
      else if !m.duration.value.Fin? then Bad("dns duration must be a finite number")
      else if m.duration.value.v < 0.0 then Bad("dns duration must not be negative")
      else None
    else if m.duration.Some? then Bad("dns duration must be null on failure")
    else None
  }

  /** Section 11 of the protocol. */
  predicate WellFormedHTTP(m: HTTPResult) {
    && (m.status.Some? <==> m.duration.Some?)
    && (m.status.Some? ==> 100 <= m.status.value <= 599 && NonNegative(m.duration.value))
    && (m.success <==> m.status.Some? && 200 <= m.status.value < 400)
  }

  function ValidateHTTP(m: HTTPResult): (e: Option<Error>)
    ensures e == None <==> WellFormedHTTP(m)
    ensures e.Some? ==> e.value.code == InvalidPayload
  {
    if m.status.None? && m.duration.None? then
      if m.success then Bad("http success cannot be true without a response") else None
    else if m.status.None? || m.duration.None? then Bad("http status_code and duration_ms must both be set or both be null")
    else if m.status.value < 100 || m.status.value > 599 then Bad("http status_code must be between 100 and 599")
    else if !m.duration.value.Fin? then Bad("http duration must be a finite number")
    else if m.duration.value.v < 0.0 then Bad("http duration must not be negative")
    else if m.success != (m.status.value >= 200 && m.status.value < 400) then Bad("http success does not match status_code")
    else None
  }

  /** The measurement carries a payload of its declared type, and that payload is well formed. */
  predicate WellFormed(t: string, m: Measurement) {
    if t == ICMP then m.icmp.Some? && WellFormedICMP(m.icmp.value)
    else if t == DNS then m.dns.Some? && WellFormedDNS(m.dns.value)
    else t == HTTP && m.http.Some? && WellFormedHTTP(m.http.value)
  }

  function ValidateMeasurement(t: string, m: Measurement): (e: Option<Error>)
    ensures e == None <==> WellFormed(t, m)
    ensures e.Some? && KnownType(t) ==> e.value.code == InvalidPayload
  {
    if t == ICMP then
      if m.icmp.None? then Bad("icmp measurement is missing or malformed") else ValidateICMP(m.icmp.value)
    else if t == DNS then
      if m.dns.None? then Bad("dns measurement is missing or malformed") else ValidateDNS(m.dns.value)
    else if t == HTTP then
      if m.http.None? then Bad("http measurement is missing or malformed") else ValidateHTTP(m.http.value)
    else Some(Error(InvalidProbeType, "unsupported probe type"))
  }

  // ----- Verdict of a request, independent of any visiting order -------------------------

  function TypeFault(allowed: set<string>, t: string, m: Measurement): Option<Error> {
    if !KnownType(t) then Some(Error(InvalidProbeType, "unsupported probe type"))
    else if t !in allowed then Some(Error(InvalidProbeType, "probe type is not allowed for this target"))
    else ValidateMeasurement(t, m)
  }

  function FaultyTypes(allowed: set<string>, byType: ByType): set<string> {
    set t | t in byType && TypeFault(allowed, t, byType[t]) != None
  }

  /** The fault of the least faulty type, if any. */
  function TypesFault(allowed: set<string>, byType: ByType): Option<Error> {
    var faulty := FaultyTypes(allowed, byType);
    if faulty == {} then None else TypeFault(allowed, Least(faulty), byType[Least(faulty)])
  }

  function TargetFault(al: Allowlist, target: string, byType: ByType): Option<Error> {
    if target !in al then Some(Error(InvalidTarget, "unknown target"))
    else if byType == map[] then Bad("target has no measurements")
    else
      TypesFault(al[target], byType)
  }

  function FaultyTargets(al: Allowlist, results: Results): set<string> {
    set t | t in results && TargetFault(al, t, results[t]) != None
  }

  function HeaderFault(r: PushRequest, current: string): Option<Error> {
    if r.version != VERSION then Some(Error(UnsupportedVersion, "unsupported protocol version"))
    else if Text.ByteLen(r.configID) > MAX_CONFIG_ID_LEN then Bad("config_id is too long")
    else if r.configID != "" && r.configID != current then Some(Error(ConfigStale, "measurement config is out of date"))
    else if r.timestamp < 0 then Bad("timestamp must not be negative")
    else if Text.ByteLen(r.probeVersion) > MAX_PROBE_VERSION_LEN then Bad("probe_version is too long")
    else if r.results == map[] then Bad(NO_MEASUREMENTS)
    else None
  }

  /** The fault of the least faulty target, if any. */
  function TargetsFault(al: Allowlist, results: Results): Option<Error> {
    var faulty := FaultyTargets(al, results);
    if faulty == {} then None else TargetFault(al, Least(faulty), results[Least(faulty)])
  }

  /** Header faults first, then the fault of the least faulty target. */
  function Verdict(r: PushRequest, al: Allowlist, current: string): Option<Error> {
    if HeaderFault(r, current) != None then HeaderFault(r, current)
    else TargetsFault(al, r.results)
  }

  /** A request is accepted exactly when every single rule holds of it. */
  predicate Acceptable(r: PushRequest, al: Allowlist, current: string) {
    && r.version == VERSION
    && (r.configID == "" || (r.configID == current && Text.ByteLen(current) <= MAX_CONFIG_ID_LEN))
    && r.timestamp >= 0
    && Text.ByteLen(r.probeVersion) <= MAX_PROBE_VERSION_LEN
    && r.results != map[]
    && forall t :: t in r.results ==> && t in al && r.results[t] != map[]
                                      && AllWellFormed(al[t], r.results[t])
  }

  predicate AllWellFormed(allowed: set<string>, byType: ByType) {
    forall pt :: pt in byType ==> KnownType(pt) && pt in allowed && WellFormed(pt, byType[pt])
  }

  lemma TargetFaultNone(al: Allowlist, t: string, byType: ByType)
    ensures TargetFault(al, t, byType) == None <==> t in al && byType != map[] && AllWellFormed(al[t], byType)
  {
    if t in al && byType != map[] {
      var faulty := FaultyTypes(al[t], byType);
      if faulty == {} {
        forall pt | pt in byType ensures KnownType(pt) && pt in al[t] && WellFormed(pt, byType[pt]) {
          assert pt !in faulty;
        }
      } else {
        assert Least(faulty) in faulty;
      }
    }
  }

  lemma AcceptedIffAcceptable(r: PushRequest, al: Allowlist, current: string)
    ensures Verdict(r, al, current) == None <==> Acceptable(r, al, current)
  {
    forall t | t in r.results
      ensures t !in FaultyTargets(al, r.results) <==> t in al && r.results[t] != map[] && AllWellFormed(al[t], r.results[t])
    {
      TargetFaultNone(al, t, r.results[t]);
    }
    var faulty := FaultyTargets(al, r.results);
    if HeaderFault(r, current) == None {
      if faulty != {} { assert Least(faulty) in faulty; }
      assert faulty == {} <==> forall t :: t in r.results ==> t !in faulty;
    } else {
      assert Text.ByteLen("") == 0;
    }
  }

  // ----- Which refusal a request gets, in terms of the rules alone -----------------------

  predicate BreaksType(allowed: set<string>, pt: string, m: Measurement) {
    !KnownType(pt) || pt !in allowed || !WellFormed(pt, m)
  }

  predicate BreaksTarget(al: Allowlist, t: string, byType: ByType) {
    t !in al || byType == map[] || exists pt :: pt in byType && BreaksType(al[t], pt, byType[pt])
  }

  /** `t` breaks a rule and every smaller target of the request keeps them all. */
  predicate FirstToBreak(r: PushRequest, al: Allowlist, t: string) {
    && t in r.results && BreaksTarget(al, t, r.results[t])
    && forall u :: u in r.results && u != t && BreaksTarget(al, u, r.results[u]) ==> Less(t, u)
  }

  predicate FirstTypeToBreak(allowed: set<string>, byType: ByType, pt: string) {
    && pt in byType && BreaksType(allowed, pt, byType[pt])
    && forall u :: u in byType && u != pt && BreaksType(allowed, u, byType[u]) ==> Less(pt, u)
  }

  /** No rule about the request as a whole is broken. */
  predicate HeaderSound(r: PushRequest, current: string) {
    && r.version == 1 && Text.ByteLen(r.configID) <= 64 && (r.configID == "" || r.configID == current)
    && r.timestamp >= 0 && Text.ByteLen(r.probeVersion) <= 32 && r.results != map[]
  }

  /** The first target to break a rule is not one the gateway knows. */
  ghost predicate UnknownFirst(r: PushRequest, al: Allowlist) { exists t :: FirstToBreak(r, al, t) && t !in al }

  ghost predicate ForeignType(allowed: set<string>, byType: ByType) {
    exists pt :: FirstTypeToBreak(allowed, byType, pt) && (!KnownType(pt) || pt !in allowed)
  }

  /** It is known, and its first type to break a rule is unknown or not allowed for it. */
  ghost predicate ForeignTypeFirst(r: PushRequest, al: Allowlist) {
    exists t :: FirstToBreak(r, al, t) && t in al && ForeignType(al[t], r.results[t])
  }

  lemma FaultyTypeIff(allowed: set<string>, t: string, m: Measurement)
    ensures TypeFault(allowed, t, m) != None <==> BreaksType(allowed, t, m)
    ensures BreaksType(allowed, t, m) ==>
              TypeFault(allowed, t, m).value.code == if !KnownType(t) || t !in allowed then InvalidProbeType else InvalidPayload
  {
  }

  lemma TypesCode(allowed: set<string>, byType: ByType)
    requires exists pt :: pt in byType && BreaksType(allowed, pt, byType[pt])
    ensures TypesFault(allowed, byType).Some?
    ensures TypesFault(allowed, byType).value.code == if ForeignType(allowed, byType) then InvalidProbeType else InvalidPayload
  {
    var faulty := FaultyTypes(allowed, byType);
    forall t | t in byType ensures t in faulty <==> BreaksType(allowed, t, byType[t]) { FaultyTypeIff(allowed, t, byType[t]); }
    var pt :| pt in byType && BreaksType(allowed, pt, byType[pt]);
    assert pt in faulty;
    var least := Least(faulty);
    FaultyTypeIff(allowed, least, byType[least]);
    assert FirstTypeToBreak(allowed, byType, least);
    forall u | FirstTypeToBreak(allowed, byType, u) ensures u == least {
      if u != least { LessAsymmetric(u, least); }
    }
  }

  lemma FaultyTargetIff(al: Allowlist, t: string, byType: ByType)
    ensures TargetFault(al, t, byType) != None <==> BreaksTarget(al, t, byType)
  {
    TargetFaultNone(al, t, byType);
  }

  lemma TargetCode(al: Allowlist, t: string, byType: ByType)
    requires BreaksTarget(al, t, byType)
    ensures TargetFault(al, t, byType).Some?
    ensures TargetFault(al, t, byType).value.code ==
              if t !in al then InvalidTarget
              else if byType != map[] && ForeignType(al[t], byType) then InvalidProbeType else InvalidPayload
  {
    if t in al && byType != map[] { TypesCode(al[t], byType); }
  }

  lemma EmptyHasNoType(allowed: set<string>)
    ensures !ForeignType(allowed, map[])
  {
  }

  lemma LeastFaulty(r: PushRequest, al: Allowlist)
    requires FaultyTargets(al, r.results) != {}
    ensures FirstToBreak(r, al, Least(FaultyTargets(al, r.results)))
    ensures forall t :: FirstToBreak(r, al, t) ==> t == Least(FaultyTargets(al, r.results))
  {
    var faulty := FaultyTargets(al, r.results);
    forall t | t in r.results ensures t in faulty <==> BreaksTarget(al, t, r.results[t]) { FaultyTargetIff(al, t, r.results[t]); }
    var least := Least(faulty);
    forall t | FirstToBreak(r, al, t) ensures t == least {
      if t != least { LessAsymmetric(t, least); }
    }
  }

  lemma NoneFaulty(r: PushRequest, al: Allowlist)
    requires FaultyTargets(al, r.results) == {}
    ensures forall t :: !FirstToBreak(r, al, t)
  {
    forall t | t in r.results ensures !BreaksTarget(al, t, r.results[t]) {
      FaultyTargetIff(al, t, r.results[t]);
      assert t !in FaultyTargets(al, r.results);
    }
  }

  lemma TargetsCode(r: PushRequest, al: Allowlist)
    ensures TargetsFault(al, r.results).Some? <==> exists t :: FirstToBreak(r, al, t)
    ensures TargetsFault(al, r.results).Some? ==>
              TargetsFault(al, r.results).value.code ==
                if UnknownFirst(r, al) then InvalidTarget else if ForeignTypeFirst(r, al) then InvalidProbeType else InvalidPayload
    ensures !(UnknownFirst(r, al) && ForeignTypeFirst(r, al))
  {
    var faulty := FaultyTargets(al, r.results);
    if faulty == {} {
      NoneFaulty(r, al);
    } else {
      LeastFaulty(r, al);
      var t := Least(faulty);
      TargetCode(al, t, r.results[t]);
      if t in al { EmptyHasNoType(al[t]); }
    }
  }

  /** Every refusal says what is wrong: the version, the configuration, a target, a type, or else the payload. */
  lemma VerdictCodes(r: PushRequest, al: Allowlist, current: string)
    ensures var v := Verdict(r, al, current);
            var code := if v.Some? then Some(v.value.code) else None;
            && (code == Some(UnsupportedVersion) <==> r.version != 1)
            && (code == Some(ConfigStale) <==>
                  r.version == 1 && Text.ByteLen(r.configID) <= 64 && r.configID != "" && r.configID != current)
            && (code == Some(InvalidTarget) <==> HeaderSound(r, current) && UnknownFirst(r, al))
            && (code == Some(InvalidProbeType) <==> HeaderSound(r, current) && ForeignTypeFirst(r, al))
            && (v.Some? ==> code.value in {UnsupportedVersion, ConfigStale, InvalidTarget, InvalidProbeType, InvalidPayload})
  {
    HeaderCodes(r, current);
    TargetsCode(r, al);
  }

  lemma HeaderCodes(r: PushRequest, current: string)
    ensures HeaderFault(r, current) == None <==> HeaderSound(r, current)
    ensures HeaderFault(r, current).Some? ==>
              HeaderFault(r, current).value.code ==
                if r.version != VERSION then UnsupportedVersion
                else if Text.ByteLen(r.configID) <= 64 && r.configID != "" && r.configID != current then ConfigStale
                else InvalidPayload
  {
  }

  // ----- The validation loop -------------------------------------------------------------

  /** Everything before position `i` is fault free and position `i` is not: that is the least fault. */
  lemma FirstIsLeast(order: seq<string>, i: nat, faulty: set<string>)
    requires StrictlyAscending(order) && i < |order| && order[i] in faulty
    requires forall x :: x in faulty ==> x in order
    requires forall k :: 0 <= k < i ==> order[k] !in faulty
    ensures faulty != {} && Least(faulty) == order[i]
  {
    forall y | y in faulty && y != order[i] ensures Less(order[i], y) {
      var k :| 0 <= k < |order| && order[k] == y;
      assert k > i;
    }
    LeastUnique(Least(faulty), order[i], faulty);
  }

  lemma {:induction false} AscendingLength(s: set<string>)
    ensures |Ascending(s)| == |s|
  {
    if s != {} { AscendingLength(s - {Least(s)}); }
  }

  /** The orders in which one request's maps are visited: of the targets, and of each target's types. */
  datatype Visits = Visits(targets: seq<string>, types: map<string, seq<string>>)

  predicate VisitsOf(v: Visits, results: Results) {
    IsOrder(v.targets, results.Keys) && forall t :: t in results ==> VisitsAt(v, results, t)
  }

  predicate VisitsAt(v: Visits, results: Results, t: string)
    requires t in results
  {
    t in v.types && IsOrder(v.types[t], results[t].Keys)
  }

  /** The keys of a map, collected in the order they are visited in and then sorted. */
  method SortedKeys(order: seq<string>, ghost keys: set<string>) returns (r: seq<string>)
    requires IsOrder(order, keys)
    ensures r == Ascending(keys) && StrictlyAscending(r) && Elements(r) == keys && |r| == |keys|
  {
    var collected: seq<string> := [];
    for i := 0 to |order|
      invariant collected == order[..i]
    {
      assert order[..i + 1] == order[..i] + [order[i]];
      collected := collected + [order[i]];
    }
    assert order[..|order|] == order;
    SortDistinct(collected);
    AscendingLength(keys);
    r := SortBy(collected, Self);
  }

  method ValidateType(allowed: set<string>, t: string, m: Measurement) returns (err: Option<Error>)
    ensures err == TypeFault(allowed, t, m)
  {
    if !KnownType(t) {
      return Some(Error(InvalidProbeType, "unsupported probe type"));
    }
    if t !in allowed {
      return Some(Error(InvalidProbeType, "probe type is not allowed for this target"));
    }
    err := ValidateMeasurement(t, m);
  }

  /** The inner loop: the fault of the least faulty type. */
  method ValidateTypes(allowed: set<string>, byType: ByType, order: seq<string>) returns (err: Option<Error>, counted: nat)
    requires IsOrder(order, byType.Keys)
    ensures err == TypesFault(allowed, byType)
    ensures err == None ==> counted == |byType|
  {
    var types := SortedKeys(order, byType.Keys);
    err, counted := ValidateSortedTypes(allowed, byType, types);
  }

  method ValidateSortedTypes(allowed: set<string>, byType: ByType, types: seq<string>) returns (err: Option<Error>, counted: nat)
    requires StrictlyAscending(types) && Elements(types) == byType.Keys && |types| == |byType|
    ensures err == TypesFault(allowed, byType)
    ensures err == None ==> counted == |byType|
  {
    counted := 0;
    ghost var faulty := FaultyTypes(allowed, byType);
    for i := 0 to |types|
      invariant forall k :: 0 <= k < i ==> types[k] !in faulty
      invariant counted == i
    {
      var t := types[i];
      assert t in Elements(types);
      err := ValidateType(allowed, t, byType[t]);
      if err != None {
        FirstIsLeast(types, i, faulty);
        return;
      }
      counted := counted + 1;
    }
    assert forall t :: t in faulty ==> t in Elements(types);
    err := None;
  }

  method ValidateTarget(al: Allowlist, target: string, byType: ByType, order: seq<string>) returns (err: Option<Error>, counted: nat)
    requires IsOrder(order, byType.Keys)
    ensures err == TargetFault(al, target, byType)
    ensures err == None ==> counted > 0
  {
    if target !in al {
      return Some(Error(InvalidTarget, "unknown target")), 0;
    }
    if |byType| == 0 {
      return Bad("target has no measurements"), 0;
    }
    err, counted := ValidateTypes(al[target], byType, order);
  }

  method ValidateHeader(r: PushRequest, current: string) returns (err: Option<Error>)
    ensures err == HeaderFault(r, current)
  {
    if r.version != VERSION {
      return Some(Error(UnsupportedVersion, "unsupported protocol version"));
    }
    if Text.ByteLen(r.configID) > MAX_CONFIG_ID_LEN {
      return Bad("config_id is too long");
    }
    if r.configID != "" && r.configID != current {
      return Some(Error(ConfigStale, "measurement config is out of date"));
    }
    if r.timestamp < 0 {
      return Bad("timestamp must not be negative");
    }
    if Text.ByteLen(r.probeVersion) > MAX_PROBE_VERSION_LEN {
      return Bad("probe_version is too long");
    }
    if |r.results| == 0 {
      return Bad(NO_MEASUREMENTS);
    }
    err := None;
  }

  method ValidateTargetAt(al: Allowlist, target: string, results: Results, visits: Visits) returns (err: Option<Error>, counted: nat)
    requires target in results && VisitsAt(visits, results, target)
    ensures err == TargetFault(al, target, results[target])
    ensures err == None ==> counted > 0
  {
    err, counted := ValidateTarget(al, target, results[target], visits.types[target]);
  }

  /** The outer loop: the fault of the least faulty target. */
  method ValidateTargets(al: Allowlist, results: Results, visits: Visits) returns (err: Option<Error>)
    requires results != map[] && VisitsOf(visits, results)
    ensures err == TargetsFault(al, results)
  {
    var targets := SortedKeys(visits.targets, results.Keys);
    err := ValidateSortedTargets(al, results, visits, targets);
  }

  method ValidateSortedTargets(al: Allowlist, results: Results, visits: Visits, targets: seq<string>) returns (err: Option<Error>)
    requires StrictlyAscending(targets) && Elements(targets) == results.Keys && |targets| > 0
    requires forall t :: t in results ==> VisitsAt(visits, results, t)
    ensures err == TargetsFault(al, results)
  {
    ghost var faulty := FaultyTargets(al, results);
    var total := 0;
    for i := 0 to |targets|
      invariant forall k :: 0 <= k < i ==> targets[k] !in faulty
      invariant total >= i
    {
      assert targets[i] in Elements(targets);
      assert VisitsAt(visits, results, targets[i]);
      var counted;
      err, counted := ValidateTargetAt(al, targets[i], results, visits);
      if err != None {
        FirstIsLeast(targets, i, faulty);
        return;
      }
      total := total + counted;
    }
    assert forall t :: t in faulty ==> t in Elements(targets);
    assert total > 0;  // so the guard below never fires
    err := if total == 0 then Bad(NO_MEASUREMENTS) else None;
  }

  /** Goes through targets, then types, in ascending order and stops at the first fault, whatever order
      the maps are visited in. */
  method Validate(r: PushRequest, al: Allowlist, current: string, visits: Visits) returns (err: Option<Error>)
    requires VisitsOf(visits, r.results)
    ensures err == Verdict(r, al, current)
  {
    err := ValidateHeader(r, current);
    if err == None {
      err := ValidateTargets(al, r.results, visits);
    }
  }
}
