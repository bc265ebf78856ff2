/** Measurement parameters: their validation, the settings form, and the push cadence they imply. */
module Settings {
  import opened Wire
  import opened Text
  import opened Buckets

  const MIN_INTERVAL_MS := 1000
  const HTTP_METHOD := "GET"
  const DNS_TRANSPORT := "udp"
  const MAX_INT := 0x7FFF_FFFF_FFFF_FFFF
  const NS_PER_MS := 1_000_000

  const DEFAULTS := Config(10_000, ICMPConfig(5, 200, 1000), HTTPConfig("GET", true, true, 5000), DNSConfig("udp", 3000))

  /** Two's-complement wrap-around of Go's 64-bit `int`. */
  function Wrap(n: int): (w: int)
    ensures -MAX_INT - 1 <= w <= MAX_INT
    ensures -MAX_INT - 1 <= n <= MAX_INT ==> w == n
  {
    (n + MAX_INT + 1) % (2 * (MAX_INT + 1)) - MAX_INT - 1
  }

  /** The longest one ICMP round can take. */
  function RoundMS(c: Config): int { (c.icmp.count - 1) * c.icmp.intervalMS + c.icmp.timeoutMS }

  /** The same as the program computes it, in machine integers. */
  function ICMPRoundMS(c: Config): int { if c.icmp.count <= 0 then 0 else Wrap(RoundMS(c)) }

  datatype Fault =
    | CycleTooShort | BadCount | BadICMPInterval | BadICMPTimeout | RoundOutlivesCycle | BadMethod | BadTransport
    | BadHTTPTimeout | HTTPTimeoutTooLong | BadDNSTimeout | DNSTimeoutTooLong | NotAnInteger(field: nat) | FasterThanRateLimit

  predicate Valid(c: Config) {
    && MIN_INTERVAL_MS <= c.intervalMS
    && 0 < c.icmp.count && 0 < c.icmp.intervalMS && 0 < c.icmp.timeoutMS && ICMPRoundMS(c) < c.intervalMS
    && c.http.method_ == HTTP_METHOD && 0 < c.http.timeoutMS < c.intervalMS
    && c.dns.transport == DNS_TRANSPORT && 0 < c.dns.timeoutMS < c.intervalMS
  }

  function Validate(c: Config): (f: Option<Fault>)
    ensures f == None <==> Valid(c)
  {
    if c.intervalMS < MIN_INTERVAL_MS then Some(CycleTooShort)
    else if c.icmp.count <= 0 then Some(BadCount)
    else if c.icmp.intervalMS <= 0 then Some(BadICMPInterval)
    else if c.icmp.timeoutMS <= 0 then Some(BadICMPTimeout)
    else if ICMPRoundMS(c) >= c.intervalMS then Some(RoundOutlivesCycle)
    else if c.http.method_ != HTTP_METHOD then Some(BadMethod)
    else if c.dns.transport != DNS_TRANSPORT then Some(BadTransport)
    else if c.http.timeoutMS <= 0 then Some(BadHTTPTimeout)
    else if c.http.timeoutMS >= c.intervalMS then Some(HTTPTimeoutTooLong)
    else if c.dns.timeoutMS <= 0 then Some(BadDNSTimeout)
    else if c.dns.timeoutMS >= c.intervalMS then Some(DNSTimeoutTooLong)
    else None
  }

  /** A valid configuration's rounds fit its cycle exactly when the round does not overflow. */
  lemma RoundFitsIff(c: Config)
    requires Valid(c) && c.intervalMS <= MAX_INT
    ensures RoundMS(c) < c.intervalMS <==> RoundMS(c) <= MAX_INT
  {
    assert (c.icmp.count - 1) * c.icmp.intervalMS >= 0;
  }

  /** And it can overflow: 2^32 gaps of 2^32 milliseconds wrap to nothing. */
  lemma OverflowAccepted()
    ensures var c := DEFAULTS.(icmp := ICMPConfig(0x1_0000_0001, 0x1_0000_0000, 1000));
            Valid(c) && RoundMS(c) > c.intervalMS
  {
    var c := DEFAULTS.(icmp := ICMPConfig(0x1_0000_0001, 0x1_0000_0000, 1000));
    assert RoundMS(c) == 0x1_0000_0000_0000_0000 + 1000;
    assert Wrap(RoundMS(c)) == 1000;
  }

  // ----- What is in force ----------------------------------------------------------------

  /** The stored set, or the defaults when there is none or it is not valid. */
  function InForce(stored: Option<Config>): (c: Config)
    ensures Valid(c)
    ensures stored.Some? && Valid(stored.value) ==> c == stored.value
    ensures !(stored.Some? && Valid(stored.value)) ==> c == DEFAULTS
  {
    match stored
    case Some(c) => if Validate(c) == None then c else DEFAULTS
    case None => DEFAULTS
  }

  // ----- The settings form ---------------------------------------------------------------

  /** The six numbers as typed, in the order of the form, and the two boxes. */
  datatype Form = Form(numbers: seq<string>, followRedirects: bool, verifyTLS: bool)

  datatype Submission = Accepted(config: Config) | Rejected(fault: Fault)

  function FormFromConfig(c: Config): (f: Form)
    ensures |f.numbers| == 6
  {
    Form([Itoa(c.intervalMS), Itoa(c.icmp.count), Itoa(c.icmp.intervalMS), Itoa(c.icmp.timeoutMS),
          Itoa(c.http.timeoutMS), Itoa(c.dns.timeoutMS)],
         c.http.followRedirects, c.http.verifyTLS)
  }

  function Build(v: seq<int>, follow: bool, verify: bool): Config
    requires |v| == 6
  {
    Config(v[0], ICMPConfig(v[1], v[2], v[3]), HTTPConfig(HTTP_METHOD, follow, verify, v[4]), DNSConfig(DNS_TRANSPORT, v[5]))
  }

  /** `rateLimit` is the push limiter's interval in nanoseconds; the comparison is in whole milliseconds. */
  method ConfigFromForm(rateLimit: nat, f: Form) returns (r: Submission)
    requires |f.numbers| == 6
    ensures r == Submit(rateLimit, f)
  {
    var values: seq<int> := [];
    for i := 0 to 6
      invariant |values| == i
      invariant forall k :: 0 <= k < i ==> Atoi(f.numbers[k]) == Some(values[k])
    {
      var v := Atoi(f.numbers[i]);
      if v.None? {
        return Rejected(NotAnInteger(i));
      }
      values := values + [v.value];
    }
    var cfg := Build(values, f.followRedirects, f.verifyTLS);
    assert values == Parsed(f);
    var fault := Validate(cfg);
    if fault != None {
      return Rejected(fault.value);
    }
    if cfg.intervalMS < rateLimit / NS_PER_MS {
      return Rejected(FasterThanRateLimit);
    }
    r := Accepted(cfg);
  }

  function FirstBad(f: Form, i: nat): nat
    requires |f.numbers| == 6 && i <= 6
    ensures i <= FirstBad(f, i) <= 6
    ensures FirstBad(f, i) < 6 ==> Atoi(f.numbers[FirstBad(f, i)]) == None
    ensures forall k :: i <= k < FirstBad(f, i) ==> Atoi(f.numbers[k]).Some?
    decreases 6 - i
  {
    if i == 6 || Atoi(f.numbers[i]) == None then i else FirstBad(f, i + 1)
  }

  function Parsed(f: Form): seq<int>
    requires |f.numbers| == 6 && FirstBad(f, 0) == 6
  {
    seq(6, i requires 0 <= i < 6 => Atoi(f.numbers[i]).value)
  }

  /** The first number that does not parse, else the first broken rule, else the configuration. */
  function Submit(rateLimit: nat, f: Form): Submission
    requires |f.numbers| == 6
  {
    if FirstBad(f, 0) < 6 then Rejected(NotAnInteger(FirstBad(f, 0)))
    else
      var c := Build(Parsed(f), f.followRedirects, f.verifyTLS);
      if Validate(c) != None then Rejected(Validate(c).value)
      else if c.intervalMS < rateLimit / NS_PER_MS then Rejected(FasterThanRateLimit)
      else Accepted(c)
  }

  /** Which number is which: an accepted form's configuration holds what was typed, in the order of the
      form, and the two boxes; method and transport are fixed. */
  lemma AcceptedFields(rateLimit: nat, f: Form)
    requires |f.numbers| == 6 && Submit(rateLimit, f).Accepted?
    ensures var c := Submit(rateLimit, f).config;
            && Atoi(f.numbers[0]) == Some(c.intervalMS)
            && Atoi(f.numbers[1]) == Some(c.icmp.count)
            && Atoi(f.numbers[2]) == Some(c.icmp.intervalMS)
            && Atoi(f.numbers[3]) == Some(c.icmp.timeoutMS)
            && Atoi(f.numbers[4]) == Some(c.http.timeoutMS)
            && Atoi(f.numbers[5]) == Some(c.dns.timeoutMS)
            && c.http.followRedirects == f.followRedirects && c.http.verifyTLS == f.verifyTLS
            && c.http.method_ == "GET" && c.dns.transport == "udp"
  {
  }

  predicate MachineInts(c: Config) {
    forall n :: n in [c.intervalMS, c.icmp.count, c.icmp.intervalMS, c.icmp.timeoutMS, c.http.timeoutMS, c.dns.timeoutMS] ==>
      -MAX_INT - 1 <= n <= MAX_INT
  }

  /** Rendering the form and saving it again changes nothing: it is accepted exactly when the
      configuration still meets the rules, and then gives the same configuration back. */
  lemma NoOpSave(rateLimit: nat, c: Config)
    requires MachineInts(c) && c.http.method_ == HTTP_METHOD && c.dns.transport == DNS_TRANSPORT
    ensures Submit(rateLimit, FormFromConfig(c)) == Accepted(c) <==> Valid(c) && c.intervalMS >= rateLimit / NS_PER_MS
    ensures Submit(rateLimit, FormFromConfig(c)).Accepted? ==> Submit(rateLimit, FormFromConfig(c)) == Accepted(c)
  {
    var f := FormFromConfig(c);
    var v := [c.intervalMS, c.icmp.count, c.icmp.intervalMS, c.icmp.timeoutMS, c.http.timeoutMS, c.dns.timeoutMS];
    forall k | 0 <= k < 6 ensures Atoi(f.numbers[k]) == Some(v[k]) {
      assert v[k] in v;
      AtoiItoa(v[k]);
    }
    assert FirstBad(f, 0) == 6;
    assert Parsed(f) == v;
  }

  // ----- Cadence -------------------------------------------------------------------------

  /** Consecutive pushes at least `gap` apart. */
  predicate Spaced(times: seq<int>, gap: int) {
    forall i :: 0 <= i && i + 1 < |times| ==> times[i] + gap <= times[i + 1]
  }

  predicate AllTrue(ds: seq<bool>) { forall i :: 0 <= i < |ds| ==> ds[i] }

  /** Once an interval has passed since the last attempt, the next one is admitted, drained or not. */
  lemma {:induction false} SpacedAdmitted(p: Params, b: Bucket, times: seq<int>)
    requires times != [] && b.last <= times[0] && Spaced(times, p.interval)
    ensures AllTrue(Decisions(p, b, times)[1..])
    ensures Admits(p, b, times[0]) ==> AllTrue(Decisions(p, b, times))
    decreases |times|
  {
    CapCoversOne(p);
    var rest, b' := times[1..], Spend(p, b, times[0]);
    var ds := Decisions(p, b, times);
    assert ds[1..] == Decisions(p, b', rest) && ds[0] == Admits(p, b, times[0]);
    if rest != [] {
      assert times[0] + p.interval <= times[0 + 1] == rest[0];
      assert Admits(p, b', rest[0]);
      SpacedAdmitted(p, b', rest);
    }
  }

  /** With a rate limit of whole milliseconds, an accepted cycle is never throttled after its first
      push, whatever the bucket held, and not on the first push either if the bucket is fresh. */
  lemma AcceptedCycleSustained(p: Params, f: Form, b: Bucket, times: seq<int>)
    requires |f.numbers| == 6 && Submit(p.interval, f).Accepted? && p.interval % NS_PER_MS == 0
    requires times != [] && b.last <= times[0]
    requires Spaced(times, Submit(p.interval, f).config.intervalMS * NS_PER_MS)
    ensures AllTrue(Decisions(p, b, times)[1..])
    ensures b == Fresh(p, b.last) ==> AllTrue(Decisions(p, b, times))
  {
    var cycle := Submit(p.interval, f).config.intervalMS * NS_PER_MS;
    assert cycle >= p.interval;
    forall i | 0 <= i && i + 1 < |times| ensures times[i] + p.interval <= times[i + 1] {
      assert times[i] + cycle <= times[i + 1];
    }
    CapCoversOne(p);
    SpacedAdmitted(p, b, times);
  }

  function Ticks(cycle: nat, n: nat): seq<int> { seq(n, i => i * cycle) }

  lemma TicksNondecreasing(cycle: nat, n: nat)
    ensures Nondecreasing(Ticks(cycle, n)) && Spaced(Ticks(cycle, n), cycle)
    ensures forall i :: 0 <= i < n ==> 0 <= Ticks(cycle, n)[i] <= n * cycle
    ensures n > 0 ==> forall i :: 0 <= i < n ==> Ticks(cycle, n)[i] <= (n - 1) * cycle
  {
    forall i: nat, j: nat | i <= j ensures i * cycle <= j * cycle { ProductsMonotone(i, j, cycle); }
    forall i | 0 <= i && i + 1 < n ensures Ticks(cycle, n)[i] + cycle <= Ticks(cycle, n)[i + 1] {
      assert (i + 1) * cycle == i * cycle + cycle;
    }
  }

  /** A steady cycle is admitted for ever exactly when it is no shorter than the limiter's interval. */
  lemma SteadyCycleIff(p: Params, cycle: nat)
    ensures (forall n: nat :: AllTrue(Decisions(p, Fresh(p, 0), Ticks(cycle, n)))) <==> cycle >= p.interval
  {
    if cycle >= p.interval {
      forall n: nat ensures AllTrue(Decisions(p, Fresh(p, 0), Ticks(cycle, n))) {
        TicksNondecreasing(cycle, n);
        CapCoversOne(p);
        var times := Ticks(cycle, n);
        if n > 0 {
          forall i | 0 <= i && i + 1 < n ensures times[i] + p.interval <= times[i + 1] {
            assert times[i] + cycle <= times[i + 1];
          }
          SpacedAdmitted(p, Fresh(p, 0), times);
        }
      }
    } else {
      Throttled(p, cycle);
    }
  }

  lemma Throttled(p: Params, cycle: nat)
    requires cycle < p.interval
    ensures !AllTrue(Decisions(p, Fresh(p, 0), Ticks(cycle, Cap(p) + 1)))
  {
    var n := Cap(p) + 1;
    var ds := Decisions(p, Fresh(p, 0), Ticks(cycle, n));
    TicksNondecreasing(cycle, n);
    SpentWithinCredit(p, Fresh(p, 0), Ticks(cycle, n), 0, (n - 1) * cycle);
    CostOutrunsInflow(n, cycle, p.interval);
    if AllTrue(ds) { CountAll(ds); }
  }

  lemma CostOutrunsInflow(n: nat, cycle: nat, interval: nat)
    requires n > 0 && cycle < interval
    ensures n * interval >= n + (n - 1) * cycle
  {
    ProductsMonotone(cycle + 1, interval, n);
    assert interval * n == n * interval && (cycle + 1) * n == n * cycle + n;
    assert n * cycle == (n - 1) * cycle + cycle;
  }

  lemma {:induction false} CountAll(ds: seq<bool>)
    requires AllTrue(ds)
    ensures Count(ds) == |ds|
  {
    if ds != [] { CountAll(ds[1..]); }
  }

  /** The form's guard rules out every cycle the limiter cannot sustain exactly when the rate limit
      is a whole number of milliseconds, or no longer than the shortest cycle anyway. */
  lemma GuardSufficientIff(rateLimit: nat)
    requires rateLimit <= MAX_INT
    ensures (forall f: Form :: |f.numbers| == 6 && Submit(rateLimit, f).Accepted? ==>
               Submit(rateLimit, f).config.intervalMS * NS_PER_MS >= rateLimit)
            <==> rateLimit % NS_PER_MS == 0 || rateLimit <= MIN_INTERVAL_MS * NS_PER_MS
  {
    if rateLimit % NS_PER_MS != 0 && rateLimit > MIN_INTERVAL_MS * NS_PER_MS {
      var cycle := rateLimit / NS_PER_MS;
      var c := Config(cycle, ICMPConfig(1, 1, 1), HTTPConfig(HTTP_METHOD, true, true, 1), DNSConfig(DNS_TRANSPORT, 1));
      assert ICMPRoundMS(c) == 1;
      NoOpSave(rateLimit, c);
      assert Submit(rateLimit, FormFromConfig(c)) == Accepted(c);
    }
  }
}
