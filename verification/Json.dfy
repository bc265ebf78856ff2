/** The text `json.Marshal` gives the configuration identity, and its injectivity.

    Every writer puts its value in front of `rest`, so "this writer loses nothing" is one kind
    of statement throughout: equal outputs come from equal values and equal rests. */
module Json {
  import opened Wire
  import opened Text

  lemma Cancel(p: string, x: string, y: string)
    requires p + x == p + y
    ensures x == y
  {
    assert x == (p + x)[|p|..] && y == (p + y)[|p|..];
  }

  // ----- Strings (section 7 of RFC 8259, with Go's extra HTML-safe escapes) --------------

  function Hex(d: nat): (c: char)
    requires d < 16
    ensures c <= 'f'
  {
    "0123456789abcdef"[d]
  }

  predicate Escaped(c: char) {
    c < ' ' || c == '<' || c == '>' || c == '&' || c == '\U{2028}' || c == '\U{2029}'
  }

  function EscapeCode(n: nat): string
    requires n < 0x10000
  {
    ['\\', 'u', Hex(n / 16 / 16 / 16), Hex(n / 16 / 16 % 16), Hex(n / 16 % 16), Hex(n % 16)]
  }

  function Escape(c: char): (s: string)
    ensures s != "" && s[0] != '\"'
  {
    if c == '\"' then "\\\"" else if c == '\\' then "\\\\"
    else if c == '\n' then "\\n" else if c == '\r' then "\\r" else if c == '\t' then "\\t"
    else if c == '\U{08}' then "\\b" else if c == '\U{0C}' then "\\f"
    else if Escaped(c) then
      var n := c as int;
      EscapeCode(n)
    else [c]
  }

  function Unhex(h: char): int { if h <= '9' then h as int - '0' as int else h as int - 'a' as int + 10 }

  /** The code point an escape stands for. */
  function Unescape(e: string): int {
    if |e| == 1 then e[0] as int
    else if |e| == 2 then
      if e[1] == 'n' then 10 else if e[1] == 'r' then 13 else if e[1] == 't' then 9
      else if e[1] == 'b' then 8 else if e[1] == 'f' then 12 else e[1] as int
    else if |e| == 6 then
      4096 * Unhex(e[2]) + 256 * Unhex(e[3]) + 16 * Unhex(e[4]) + Unhex(e[5])
    else -1
  }

  lemma UnhexHex(d: nat)
    requires d < 16
    ensures Unhex(Hex(d)) == d
  {
  }

  lemma UnescapeCode(n: nat)
    requires n < 0x10000
    ensures Unescape(EscapeCode(n)) == n
  {
    UnhexHex(n / 16 / 16 / 16);
    UnhexHex(n / 16 / 16 % 16);
    UnhexHex(n / 16 % 16);
    UnhexHex(n % 16);
  }

  lemma UnescapeEscape(c: char)
    ensures Unescape(Escape(c)) == c as int
  {
    if Escaped(c) {
      var n := c as int;
      UnescapeCode(n);
      assert Escape(c) == EscapeCode(n) || |Escape(c)| == 2;
    }
  }

  /** How long an escape is shows in its first two characters. */
  function Width(first: char, second: char): nat {
    if first != '\\' then 1 else if second != 'u' then 2 else 6
  }

  lemma EscapeWidth(c: char)
    ensures |Escape(c)| == 1 ==> Escape(c)[0] != '\\'
    ensures |Escape(c)| != 1 ==> |Escape(c)| == Width(Escape(c)[0], Escape(c)[1])
  {
  }

  lemma EscapeCancel(c: char, x: string, d: char, y: string)
    requires Escape(c) + x == Escape(d) + y
    ensures c == d && x == y
  {
    var e, f := Escape(c), Escape(d);
    EscapeWidth(c);
    EscapeWidth(d);
    assert (e + x)[0] == e[0] && (f + y)[0] == f[0];
    assert |e| >= 2 && |f| >= 2 ==> e[1] == (e + x)[1] == (f + y)[1] == f[1];
    assert |e| == |f|;
    assert e == (e + x)[..|e|] && f == (f + y)[..|f|];
    UnescapeEscape(c);
    UnescapeEscape(d);
    Cancel(e, x, y);
  }

  function WriteChars(s: string, rest: string): string {
    if s == "" then "\"" + rest else Escape(s[0]) + WriteChars(s[1..], rest)
  }

  function WriteString(s: string, rest: string): string { "\"" + WriteChars(s, rest) }

  lemma {:induction false} WriteCharsInjective(s: string, x: string, t: string, y: string)
    requires WriteChars(s, x) == WriteChars(t, y)
    ensures s == t && x == y
  {
    assert WriteChars(s, x)[0] == (if s == "" then '\"' else Escape(s[0])[0]);
    assert WriteChars(t, y)[0] == (if t == "" then '\"' else Escape(t[0])[0]);
    if s == "" {
      Cancel("\"", x, y);
    } else {
      EscapeCancel(s[0], WriteChars(s[1..], x), t[0], WriteChars(t[1..], y));
      WriteCharsInjective(s[1..], x, t[1..], y);
      assert s == [s[0]] + s[1..] && t == [t[0]] + t[1..];
    }
  }

  lemma WriteStringInjective(s: string, x: string, t: string, y: string)
    requires WriteString(s, x) == WriteString(t, y)
    ensures s == t && x == y
  {
    Cancel("\"", WriteChars(s, x), WriteChars(t, y));
    WriteCharsInjective(s, x, t, y);
  }

  // ----- Numbers and booleans ------------------------------------------------------------

  /** What may follow a number without being read as part of it. */
  predicate Ends(rest: string) { rest != "" && !IsDigit(rest[0]) }

  lemma WriteIntInjective(m: int, x: string, n: int, y: string)
    requires Ends(x) && Ends(y) && Itoa(m) + x == Itoa(n) + y
    ensures m == n && x == y
  {
    var p, q := Itoa(m), Itoa(n);
    var s := p + x;
    assert s[0] == p[0] && s[0] == (q + y)[0] == q[0];
    DigitsOf(m);
    DigitsOf(n);
    assert s[|p|] == x[0] && s[|q|] == (q + y)[|q|] == y[0];
    assert forall k :: 0 <= k < |p| ==> s[k] == p[k];
    assert forall k :: 0 <= k < |q| ==> s[k] == (q + y)[k] == q[k];
    assert |p| == |q|;
    assert p == s[..|p|] && q == (q + y)[..|q|];
    NumberOfDigits(if m < 0 then -m else m);
    NumberOfDigits(if n < 0 then -n else n);
    if m < 0 { assert p[1..] == Digits(-m) && q[1..] == Digits(-n); }
    Cancel(p, x, y);
  }

  lemma DigitsOf(n: int)
    ensures Itoa(n) != "" && (Itoa(n)[0] == '-' <==> n < 0)
    ensures forall k :: 1 <= k < |Itoa(n)| ==> IsDigit(Itoa(n)[k])
    ensures n >= 0 ==> IsDigit(Itoa(n)[0])
  {
    var d := Digits(if n < 0 then -n else n);
    assert forall k :: 0 <= k < |d| ==> d[k] in d;
  }

  function Bool(b: bool): string { if b then "true" else "false" }

  lemma WriteBoolInjective(b: bool, x: string, c: bool, y: string)
    requires Bool(b) + x == Bool(c) + y
    ensures b == c && x == y
  {
    assert (Bool(b) + x)[0] == Bool(b)[0] && (Bool(c) + y)[0] == Bool(c)[0];
    Cancel(Bool(b), x, y);
  }

  // ----- Measurement parameters ----------------------------------------------------------

  function WriteICMP(c: ICMPConfig, rest: string): string {
    "{\"count\":" + (Itoa(c.count) + (",\"interval_ms\":" + (Itoa(c.intervalMS) +
    (",\"timeout_ms\":" + (Itoa(c.timeoutMS) + ("}" + rest))))))
  }

  lemma WriteICMPInjective(a: ICMPConfig, x: string, b: ICMPConfig, y: string)
    requires WriteICMP(a, x) == WriteICMP(b, y)
    ensures a == b && x == y
  {
    var a3, b3 := "}" + x, "}" + y;
    var a2, b2 := ",\"timeout_ms\":" + (Itoa(a.timeoutMS) + a3), ",\"timeout_ms\":" + (Itoa(b.timeoutMS) + b3);
    var a1, b1 := ",\"interval_ms\":" + (Itoa(a.intervalMS) + a2), ",\"interval_ms\":" + (Itoa(b.intervalMS) + b2);
    Cancel("{\"count\":", Itoa(a.count) + a1, Itoa(b.count) + b1);
    WriteIntInjective(a.count, a1, b.count, b1);
    Cancel(",\"interval_ms\":", Itoa(a.intervalMS) + a2, Itoa(b.intervalMS) + b2);
    WriteIntInjective(a.intervalMS, a2, b.intervalMS, b2);
    Cancel(",\"timeout_ms\":", Itoa(a.timeoutMS) + a3, Itoa(b.timeoutMS) + b3);
    WriteIntInjective(a.timeoutMS, a3, b.timeoutMS, b3);
    Cancel("}", x, y);
  }

  function WriteHTTP(c: HTTPConfig, rest: string): string {
    "{\"method\":" + WriteString(c.method_, ",\"follow_redirects\":" + (Bool(c.followRedirects) +
    (",\"verify_tls\":" + (Bool(c.verifyTLS) + (",\"timeout_ms\":" + (Itoa(c.timeoutMS) + ("}" + rest)))))))
  }

  lemma WriteHTTPInjective(a: HTTPConfig, x: string, b: HTTPConfig, y: string)
    requires WriteHTTP(a, x) == WriteHTTP(b, y)
    ensures a == b && x == y
  {
    var a4, b4 := "}" + x, "}" + y;
    var a3, b3 := ",\"timeout_ms\":" + (Itoa(a.timeoutMS) + a4), ",\"timeout_ms\":" + (Itoa(b.timeoutMS) + b4);
    var a2, b2 := ",\"verify_tls\":" + (Bool(a.verifyTLS) + a3), ",\"verify_tls\":" + (Bool(b.verifyTLS) + b3);
    var a1, b1 := ",\"follow_redirects\":" + (Bool(a.followRedirects) + a2), ",\"follow_redirects\":" + (Bool(b.followRedirects) + b2);
    Cancel("{\"method\":", WriteString(a.method_, a1), WriteString(b.method_, b1));
    WriteStringInjective(a.method_, a1, b.method_, b1);
    Cancel(",\"follow_redirects\":", Bool(a.followRedirects) + a2, Bool(b.followRedirects) + b2);
    WriteBoolInjective(a.followRedirects, a2, b.followRedirects, b2);
    Cancel(",\"verify_tls\":", Bool(a.verifyTLS) + a3, Bool(b.verifyTLS) + b3);
    WriteBoolInjective(a.verifyTLS, a3, b.verifyTLS, b3);
    Cancel(",\"timeout_ms\":", Itoa(a.timeoutMS) + a4, Itoa(b.timeoutMS) + b4);
    WriteIntInjective(a.timeoutMS, a4, b.timeoutMS, b4);
    Cancel("}", x, y);
  }

  function WriteDNS(c: DNSConfig, rest: string): string {
    "{\"transport\":" + WriteString(c.transport, ",\"timeout_ms\":" + (Itoa(c.timeoutMS) + ("}" + rest)))
  }

  lemma WriteDNSInjective(a: DNSConfig, x: string, b: DNSConfig, y: string)
    requires WriteDNS(a, x) == WriteDNS(b, y)
    ensures a == b && x == y
  {
    var a2, b2 := "}" + x, "}" + y;
    var a1, b1 := ",\"timeout_ms\":" + (Itoa(a.timeoutMS) + a2), ",\"timeout_ms\":" + (Itoa(b.timeoutMS) + b2);
    Cancel("{\"transport\":", WriteString(a.transport, a1), WriteString(b.transport, b1));
    WriteStringInjective(a.transport, a1, b.transport, b1);
    Cancel(",\"timeout_ms\":", Itoa(a.timeoutMS) + a2, Itoa(b.timeoutMS) + b2);
    WriteIntInjective(a.timeoutMS, a2, b.timeoutMS, b2);
    Cancel("}", x, y);
  }

  function WriteConfig(c: Config, rest: string): string {
    "{\"interval_ms\":" + (Itoa(c.intervalMS) + (",\"icmp\":" + WriteICMP(c.icmp,
    ",\"http\":" + WriteHTTP(c.http, ",\"dns\":" + WriteDNS(c.dns, "}" + rest)))))
  }

  lemma WriteConfigInjective(a: Config, x: string, b: Config, y: string)
    requires WriteConfig(a, x) == WriteConfig(b, y)
    ensures a == b && x == y
  {
    var a4, b4 := "}" + x, "}" + y;
    var a3, b3 := ",\"dns\":" + WriteDNS(a.dns, a4), ",\"dns\":" + WriteDNS(b.dns, b4);
    var a2, b2 := ",\"http\":" + WriteHTTP(a.http, a3), ",\"http\":" + WriteHTTP(b.http, b3);
    var a1, b1 := ",\"icmp\":" + WriteICMP(a.icmp, a2), ",\"icmp\":" + WriteICMP(b.icmp, b2);
    Cancel("{\"interval_ms\":", Itoa(a.intervalMS) + a1, Itoa(b.intervalMS) + b1);
    WriteIntInjective(a.intervalMS, a1, b.intervalMS, b1);
    Cancel(",\"icmp\":", WriteICMP(a.icmp, a2), WriteICMP(b.icmp, b2));
    WriteICMPInjective(a.icmp, a2, b.icmp, b2);
    Cancel(",\"http\":", WriteHTTP(a.http, a3), WriteHTTP(b.http, b3));
    WriteHTTPInjective(a.http, a3, b.http, b3);
    Cancel(",\"dns\":", WriteDNS(a.dns, a4), WriteDNS(b.dns, b4));
    WriteDNSInjective(a.dns, a4, b.dns, b4);
    Cancel("}", x, y);
  }

  // ----- Target list ---------------------------------------------------------------------

  function Comma(first: bool): string { if first then "" else "," }

  function WriteTypes(ts: seq<string>, first: bool, rest: string): string {
    if ts == [] then "]" + rest else Comma(first) + WriteString(ts[0], WriteTypes(ts[1..], false, rest))
  }

  lemma {:induction false} WriteTypesInjective(s: seq<string>, first: bool, x: string, t: seq<string>, y: string)
    requires WriteTypes(s, first, x) == WriteTypes(t, first, y)
    ensures s == t && x == y
  {
    assert WriteTypes(s, first, x)[0] == (if s == [] then ']' else if first then '\"' else ',');
    assert WriteTypes(t, first, y)[0] == (if t == [] then ']' else if first then '\"' else ',');
    if s == [] {
      Cancel("]", x, y);
    } else {
      var u, v := WriteTypes(s[1..], false, x), WriteTypes(t[1..], false, y);
      Cancel(Comma(first), WriteString(s[0], u), WriteString(t[0], v));
      WriteStringInjective(s[0], u, t[0], v);
      WriteTypesInjective(s[1..], false, x, t[1..], y);
      assert s == [s[0]] + s[1..] && t == [t[0]] + t[1..];
    }
  }

  function WriteTarget(t: Target, rest: string): string {
    "{\"target_id\":" + WriteString(t.id, ",\"address\":" + WriteString(t.address,
    ",\"probe_types\":[" + WriteTypes(t.types, true, "}" + rest)))
  }

  lemma WriteTargetInjective(s: Target, x: string, t: Target, y: string)
    requires WriteTarget(s, x) == WriteTarget(t, y)
    ensures s == t && x == y
  {
    var s3, t3 := "}" + x, "}" + y;
    var s2, t2 := ",\"probe_types\":[" + WriteTypes(s.types, true, s3), ",\"probe_types\":[" + WriteTypes(t.types, true, t3);
    var s1, t1 := ",\"address\":" + WriteString(s.address, s2), ",\"address\":" + WriteString(t.address, t2);
    Cancel("{\"target_id\":", WriteString(s.id, s1), WriteString(t.id, t1));
    WriteStringInjective(s.id, s1, t.id, t1);
    Cancel(",\"address\":", WriteString(s.address, s2), WriteString(t.address, t2));
    WriteStringInjective(s.address, s2, t.address, t2);
    Cancel(",\"probe_types\":[", WriteTypes(s.types, true, s3), WriteTypes(t.types, true, t3));
    WriteTypesInjective(s.types, true, s3, t.types, t3);
    Cancel("}", x, y);
  }

  function WriteTargets(ts: seq<Target>, first: bool, rest: string): string {
    if ts == [] then "]" + rest else Comma(first) + WriteTarget(ts[0], WriteTargets(ts[1..], false, rest))
  }

  lemma {:induction false} WriteTargetsInjective(s: seq<Target>, first: bool, x: string, t: seq<Target>, y: string)
    requires WriteTargets(s, first, x) == WriteTargets(t, first, y)
    ensures s == t && x == y
  {
    assert WriteTargets(s, first, x)[0] == (if s == [] then ']' else if first then '{' else ',');
    assert WriteTargets(t, first, y)[0] == (if t == [] then ']' else if first then '{' else ',');
    if s == [] {
      Cancel("]", x, y);
    } else {
      var u, v := WriteTargets(s[1..], false, x), WriteTargets(t[1..], false, y);
      Cancel(Comma(first), WriteTarget(s[0], u), WriteTarget(t[0], v));
      WriteTargetInjective(s[0], u, t[0], v);
      WriteTargetsInjective(s[1..], false, x, t[1..], y);
      assert s == [s[0]] + s[1..] && t == [t[0]] + t[1..];
    }
  }

  /** The hashed text: parameters and target list together, as one object. */
  function Payload(c: Config, ts: seq<Target>): string {
    "{\"config\":" + WriteConfig(c, ",\"targets\":[" + WriteTargets(ts, true, "}"))
  }

  lemma PayloadInjective(a: Config, s: seq<Target>, b: Config, t: seq<Target>)
    requires Payload(a, s) == Payload(b, t)
    ensures a == b && s == t
  {
    var u, v := ",\"targets\":[" + WriteTargets(s, true, "}"), ",\"targets\":[" + WriteTargets(t, true, "}");
    Cancel("{\"config\":", WriteConfig(a, u), WriteConfig(b, v));
    WriteConfigInjective(a, u, b, v);
    Cancel(",\"targets\":[", WriteTargets(s, true, "}"), WriteTargets(t, true, "}"));
    WriteTargetsInjective(s, true, "}", t, "}");
  }
}
