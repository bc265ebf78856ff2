/** Decimal numbers, white space and splitting, as the Go standard library defines them. */
module Text {
  import opened Wire

  // ----- Decimal -------------------------------------------------------------------------

  predicate IsDigit(c: char) { '0' <= c <= '9' }

  function Digit(d: nat): char
    requires d < 10
    ensures IsDigit(Digit(d))
  {
    '0' + d as char
  }

  function Digits(n: nat): (s: string)
    ensures s != "" && forall c :: c in s ==> IsDigit(c)
  {
    if n < 10 then [Digit(n)] else Digits(n / 10) + [Digit(n % 10)]
  }

  /** The number a run of digits denotes. */
  function Number(s: string): nat
    requires forall c :: c in s ==> IsDigit(c)
  {
    if s == "" then 0 else
      assert s[|s| - 1] in s;
      10 * Number(s[..|s| - 1]) + DigitValue(s[|s| - 1])
  }

  function DigitValue(c: char): nat
    requires IsDigit(c)
  {
    (c - '0') as int
  }

  lemma {:induction false} NumberOfDigits(n: nat)
    ensures Number(Digits(n)) == n
  {
    if n >= 10 {
      NumberOfDigits(n / 10);
      assert Digits(n)[..|Digits(n)| - 1] == Digits(n / 10);
    }
  }

  function Itoa(n: int): string { if n < 0 then "-" + Digits(-n) else Digits(n) }

  /** Optional sign, at least one digit, value within 64 bits. */
  function Atoi(s: string): Option<int> {
    var signed := s != "" && (s[0] == '-' || s[0] == '+');
    var body := if signed then s[1..] else s;
    if body == "" || exists i :: 0 <= i < |body| && !IsDigit(body[i]) then None
    else
      assert forall c :: c in body ==> exists i :: 0 <= i < |body| && body[i] == c;
      var magnitude: int := Number(body);
      var n := if signed && s[0] == '-' then -magnitude else magnitude;
      if -0x8000_0000_0000_0000 <= n < 0x8000_0000_0000_0000 then Some(n) else None
  }

  lemma AtoiDigits(m: nat)
    ensures Atoi(Digits(m)) == if m < 0x8000_0000_0000_0000 then Some(m) else None
  {
    NumberOfDigits(m);
    assert IsDigit(Digits(m)[0]);
  }

  lemma AtoiMinus(m: nat)
    ensures Atoi("-" + Digits(m)) == if m <= 0x8000_0000_0000_0000 then Some(-(m as int)) else None
  {
    NumberOfDigits(m);
    assert ("-" + Digits(m))[1..] == Digits(m);
  }

  lemma AtoiItoa(n: int)
    requires -0x8000_0000_0000_0000 <= n < 0x8000_0000_0000_0000
    ensures Atoi(Itoa(n)) == Some(n)
  {
    if n < 0 { AtoiMinus(-n); } else { AtoiDigits(n); }
  }

  // ----- White space and splitting -------------------------------------------------------

  predicate IsSpace(c: char) {
    '\t' <= c <= '\r' || c == ' ' || c == '\U{85}' || c == '\U{A0}' || c == '\U{1680}'
    || '\U{2000}' <= c <= '\U{200A}' || c == '\U{2028}' || c == '\U{2029}' || c == '\U{202F}'
    || c == '\U{205F}' || c == '\U{3000}'
  }

  function TrimSpace(s: string): string {
    if s != "" && IsSpace(s[0]) then TrimSpace(s[1..])
    else if s != "" && IsSpace(s[|s| - 1]) then TrimSpace(s[..|s| - 1])
    else s
  }

  predicate AllSpace(s: string) { forall i :: 0 <= i < |s| ==> IsSpace(s[i]) }

  predicate Bare(s: string) { s != "" ==> !IsSpace(s[0]) && !IsSpace(s[|s| - 1]) }

  lemma {:induction false} SpaceLeft(l: string, x: string)
    requires AllSpace(l)
    ensures TrimSpace(l + x) == TrimSpace(x)
  {
    if l == "" {
      assert l + x == x;
    } else {
      assert (l + x)[0] == l[0] && (l + x)[1..] == l[1..] + x;
      SpaceLeft(l[1..], x);
    }
  }

  lemma {:induction false} SpaceRight(t: string, r: string)
    requires t != "" && Bare(t) && AllSpace(r)
    ensures TrimSpace(t + r) == t
  {
    var s, k := t + r, |r| - 1;
    assert s[0] == t[0];
    if r == "" {
      assert s == t;
    } else {
      assert s[|s| - 1] == r[k] && s[..|s| - 1] == t + r[..k];
      SpaceRight(t, r[..k]);
    }
  }

  /** Outer white space goes, and nothing else. */
  lemma OuterSpaceGoes(l: string, t: string, r: string)
    requires AllSpace(l) && AllSpace(r) && Bare(t)
    ensures TrimSpace(l + t + r) == t
  {
    assert l + t + r == l + (t + r);
    SpaceLeft(l, t + r);
    if t == "" {
      assert t + r == r + "";
      SpaceLeft(r, "");
    } else {
      SpaceRight(t, r);
    }
  }

  lemma {:induction false} TrimmedIsBare(s: string)
    ensures Bare(TrimSpace(s))
    decreases |s|
  {
    if s != "" && IsSpace(s[0]) { TrimmedIsBare(s[1..]); }
    else if s != "" && IsSpace(s[|s| - 1]) { TrimmedIsBare(s[..|s| - 1]); }
  }

  /** The pieces between separators; always at least one. */
  function Split(s: string, seps: set<char>): (r: seq<string>)
    ensures r != []
  {
    if s == "" then [""]
    else
      Prepend(s[0], Split(s[1..], seps), seps)
  }

  function Prepend(c: char, pieces: seq<string>, seps: set<char>): seq<string>
    requires pieces != []
  {
    if c in seps then [""] + pieces else [[c] + pieces[0]] + pieces[1..]
  }

  lemma SplitCons(c: char, s: string, seps: set<char>)
    ensures Split([c] + s, seps) == Prepend(c, Split(s, seps), seps)
  {
    assert ([c] + s)[1..] == s;
  }

  lemma {:induction false} SplitAppend(a: string, c: char, b: string, seps: set<char>)
    requires c in seps
    ensures Split(a + [c] + b, seps) == Split(a, seps) + Split(b, seps)
  {
    if a == "" {
      assert a + [c] + b == [c] + b;
      SplitCons(c, b, seps);
    } else {
      var t := a[1..];
      assert a + [c] + b == [a[0]] + (t + [c] + b) && a == [a[0]] + t;
      SplitCons(a[0], t + [c] + b, seps);
      SplitCons(a[0], t, seps);
      SplitAppend(t, c, b, seps);
      PrependAppend(a[0], Split(t, seps), Split(b, seps), seps);
    }
  }

  lemma PrependAppend(c: char, p: seq<string>, q: seq<string>, seps: set<char>)
    requires p != []
    ensures Prepend(c, p + q, seps) == Prepend(c, p, seps) + q
  {
    assert (p + q)[1..] == p[1..] + q;
  }

  /** The maximal non-empty runs of characters that are not separators. */
  function Fields(s: string, seps: set<char>): seq<string> {
    NonEmpty(Split(s, seps))
  }

  function NonEmpty(ss: seq<string>): seq<string> {
    if ss == [] then [] else (if ss[0] == "" then [] else [ss[0]]) + NonEmpty(ss[1..])
  }

  lemma {:induction false} SplitNothing(s: string, seps: set<char>)
    requires Plain(s, seps)
    ensures Split(s, seps) == [s]
  {
    if s != "" {
      SplitNothing(s[1..], seps);
      assert s == [s[0]] + s[1..];
    }
  }

  /** A value that holds no separator. */
  predicate Plain(s: string, seps: set<char>) { forall i :: 0 <= i < |s| ==> s[i] !in seps }

  lemma NonEmptyCons(x: string, rest: seq<string>)
    requires x != ""
    ensures NonEmpty([x] + rest) == [x] + NonEmpty(rest)
  {
    assert ([x] + rest)[1..] == rest;
  }

  /** Joining plain, non-empty values by a separator and splitting again gives them back. */
  lemma FieldsCons(x: string, c: char, rest: string, seps: set<char>)
    requires x != "" && Plain(x, seps) && c in seps
    ensures Fields(x + [c] + rest, seps) == [x] + Fields(rest, seps)
  {
    SplitAppend(x, c, rest, seps);
    SplitNothing(x, seps);
    NonEmptyCons(x, Split(rest, seps));
  }

  lemma FieldsOne(x: string, seps: set<char>)
    requires x != "" && Plain(x, seps)
    ensures Fields(x, seps) == [x]
  {
    SplitNothing(x, seps);
    NonEmptyCons(x, []);
    assert [x] + [] == [x];
  }

  /** Length in UTF-8 bytes, which is what Go's `len` of a string counts. */
  function ByteLen(s: string): nat {
    if s == "" then 0 else ByteWidth(s[0]) + ByteLen(s[1..])
  }

  function ByteWidth(c: char): nat {
    if c < '\U{80}' then 1 else if c < '\U{800}' then 2 else if c < '\U{10000}' then 3 else 4
  }

  lemma {:induction false} ByteLenASCII(s: string)
    requires forall i :: 0 <= i < |s| ==> s[i] < '\U{80}'
    ensures ByteLen(s) == |s|
  {
    if s != "" { ByteLenASCII(s[1..]); }
  }
}
