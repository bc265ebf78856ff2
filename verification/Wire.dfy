/** The values that cross the wire: the dispatched configuration, a push and its measurements. */
module Wire {

  datatype Option<+T> = None | Some(value: T)

  // ----- Dispatched configuration --------------------------------------------------------

  datatype ICMPConfig = ICMPConfig(count: int, intervalMS: int, timeoutMS: int)
  datatype HTTPConfig = HTTPConfig(method_: string, followRedirects: bool, verifyTLS: bool, timeoutMS: int)
  datatype DNSConfig = DNSConfig(transport: string, timeoutMS: int)
  datatype Config = Config(intervalMS: int, icmp: ICMPConfig, http: HTTPConfig, dns: DNSConfig)

  /** One entry of the target list, as served and as hashed. */
  datatype Target = Target(id: string, address: string, types: seq<string>)

  const ICMP := "icmp"
  const DNS := "dns"
  const HTTP := "http"

  predicate KnownType(t: string) { t == ICMP || t == DNS || t == HTTP }

  // ----- Measurements --------------------------------------------------------------------

  /** A decoded JSON number. A literal such as 1e400 overflows to an infinity. */
  datatype Float = NaN | PosInf | NegInf | Fin(v: real)

  datatype ICMPResult = ICMPResult(
    success: bool, sent: int, received: int, loss: Float,
    minRTT: Option<Float>, avgRTT: Option<Float>, maxRTT: Option<Float>, jitter: Option<Float>)
  datatype DNSResult = DNSResult(success: bool, duration: Option<Float>)
  datatype HTTPResult = HTTPResult(success: bool, status: Option<int>, duration: Option<Float>)

  /** The decoder fills the field of the declared type; the others stay empty. */
  datatype Measurement = Measurement(
    icmp: Option<ICMPResult>, dns: Option<DNSResult>, http: Option<HTTPResult>)

  type ByType = map<string, Measurement>
  type Results = map<string, ByType>

  datatype PushRequest = PushRequest(
    version: int, timestamp: int, probeVersion: string, configID: string, results: Results)

  /** Target ID to the probe types permitted for it. */
  type Allowlist = map<string, set<string>>

  // ----- Protocol errors -----------------------------------------------------------------

  datatype Code =
    | InvalidPayload | UnsupportedVersion | InvalidTarget | InvalidProbeType | ConfigStale
    | InvalidRequest | Unauthorized | ProbeDisabled | RateLimited
  datatype Error = Error(code: Code, message: string)
}
