/** The configuration ID: a UUIDv5 derived from the measurement parameters and the target list. */
module Identity {
  import opened Wire
  import opened Order
  import opened Json
  import Text

  // ----- Hash and UUID text --------------------------------------------------------------

  type byte = x: int | 0 <= x < 256

  /** A SHA-1 sum. The hash function itself is a parameter of everything below. */
  type Digest = s: seq<byte> | |s| == 20 witness seq(20, i => 0)

  /** Version 5 and the RFC 4122 variant, over the first 16 bytes of the sum. */
  function Stamp(sum: Digest): (id: seq<byte>)
    ensures |id| == 16 && forall i :: 0 <= i < 16 && i != 6 && i != 8 ==> id[i] == sum[i]
    ensures id[6] / 16 == 5 && id[6] % 16 == sum[6] % 16
    ensures id[8] / 64 == 2 && id[8] % 64 == sum[8] % 64
  {
    sum[..16][6 := sum[6] % 16 + 0x50][8 := sum[8] % 64 + 0x80]
  }

  /** How many dashes stand before the digits of byte `i`. */
  function Dashes(i: nat): nat { if i < 4 then 0 else if i < 6 then 1 else if i < 8 then 2 else if i < 10 then 3 else 4 }

  function UuidPrefix(id: seq<byte>, n: nat): (s: string)
    requires |id| == 16 && n <= 16
    ensures |s| == 2 * n + if n == 0 then 0 else Dashes(n - 1)
  {
    if n == 0 then "" else UuidPrefix(id, n - 1) + Dash(n - 1) + ByteText(id[n - 1])
  }

  function Dash(i: nat): string { if i == 4 || i == 6 || i == 8 || i == 10 then "-" else "" }

  function ByteText(b: byte): string { [Hex(b / 16), Hex(b % 16)] }

  /** Where the text of byte `i` and the dash before it stand. */
  lemma {:induction false} UuidAt(id: seq<byte>, n: nat, i: nat)
    requires |id| == 16 && i < n <= 16
    ensures var s, p := UuidPrefix(id, n), 2 * i + Dashes(i);
            && p + 2 <= |s| && s[p..p + 2] == ByteText(id[i])
            && (Dash(i) == "-" ==> s[p - 1] == '-')
  {
    if i < n - 1 {
      UuidAt(id, n - 1, i);
      var q, p := UuidPrefix(id, n - 1), 2 * i + Dashes(i);
      assert UuidPrefix(id, n)[p..p + 2] == q[p..p + 2];
    }
  }

  lemma {:induction false} UuidASCII(id: seq<byte>, n: nat)
    requires |id| == 16 && n <= 16
    ensures forall p :: 0 <= p < |UuidPrefix(id, n)| ==> UuidPrefix(id, n)[p] <= 'f'
  {
    if n > 0 { UuidASCII(id, n - 1); }
  }

  function UuidText(id: seq<byte>): string
    requires |id| == 16
  {
    UuidPrefix(id, |id|)
  }

  method FormatUUID(id: seq<byte>) returns (out: string)
    requires |id| == 16
    ensures out == UuidText(id)
  {
    out := "";
    for i := 0 to 16
      invariant out == UuidPrefix(id, i)
    {
      if i == 4 || i == 6 || i == 8 || i == 10 {
        out := out + "-";
      }
      assert out == UuidPrefix(id, i) + Dash(i);
      out := out + ByteText(id[i]);
    }
  }

  // ----- Canonical form ------------------------------------------------------------------

  function ID(t: Target): string { t.id }

  function Canon(t: Target): Target { t.(types := SortBy(t.types, Self)) }

  function CanonAll(ts: seq<Target>): (r: seq<Target>)
    ensures |r| == |ts| && forall i :: 0 <= i < |ts| ==> r[i] == Canon(ts[i])
  {
    seq(|ts|, i requires 0 <= i < |ts| => Canon(ts[i]))
  }

  function Canonical(ts: seq<Target>): seq<Target> { SortBy(CanonAll(ts), ID) }

  function PayloadOf(c: Config, ts: seq<Target>): string { Payload(c, Canonical(ts)) }

  function Identify(h: string -> Digest, c: Config, ts: seq<Target>): string {
    UuidText(Stamp(h(PayloadOf(c, ts))))
  }

  /** What the derived ID is a UUIDv5 means: grouping, version digit and variant digit. */
  lemma IdentifyIsUuidV5(h: string -> Digest, c: Config, ts: seq<Target>)
    ensures var id := Identify(h, c, ts);
            && |id| == 36 && Text.ByteLen(id) == 36
            && id[8] == id[13] == id[18] == id[23] == '-'
            && id[14] == '5' && id[19] in {'8', '9', 'a', 'b'}
  {
    var b := Stamp(h(PayloadOf(c, ts)));
    UuidDigits(b);
    StampDigits(h(PayloadOf(c, ts)));
    UuidASCII(b, 16);
    Text.ByteLenASCII(UuidText(b));
  }

  lemma StampDigits(sum: Digest)
    ensures Hex(Stamp(sum)[6] / 16) == '5' && Hex(Stamp(sum)[8] / 16) in {'8', '9', 'a', 'b'}
  {
    assert Stamp(sum)[6] / 16 == 5 && Stamp(sum)[8] / 16 in {8, 9, 10, 11};
  }

  lemma UuidDigits(b: seq<byte>)
    requires |b| == 16
    ensures var id := UuidText(b);
            && id[8] == id[13] == id[18] == id[23] == '-'
            && id[14] == Hex(b[6] / 16) && id[19] == Hex(b[8] / 16)
  {
    var id := UuidText(b);
    UuidAt(b, 16, 4);
    UuidAt(b, 16, 6);
    UuidAt(b, 16, 8);
    UuidAt(b, 16, 10);
    assert id[14] == id[14..16][0] && id[19] == id[19..21][0];
  }

  // ----- The ID is over the set ----------------------------------------------------------

  /** A target without the order of its type list. */
  datatype Entry = Entry(id: string, address: string, types: multiset<string>)

  function EntryOf(t: Target): Entry { Entry(t.id, t.address, multiset(t.types)) }

  ghost function Entries(ts: seq<Target>): set<Entry> { set t | t in ts :: EntryOf(t) }

  predicate DistinctIDs(ts: seq<Target>) {
    forall i, j :: 0 <= i < j < |ts| ==> ts[i].id != ts[j].id
  }

  lemma CanonByEntry(t: Target, u: Target)
    ensures Canon(t) == Canon(u) <==> EntryOf(t) == EntryOf(u)
  {
    if EntryOf(t) == EntryOf(u) {
      SortedUnique(Canon(t).types, Canon(u).types, Self);
    }
    assert EntryOf(Canon(t)) == EntryOf(t) && EntryOf(Canon(u)) == EntryOf(u);
  }

  lemma {:induction false} DistinctMultiset(s: seq<Target>, x: Target)
    requires DistinctIDs(s)
    ensures multiset(s)[x] == if x in s then 1 else 0
  {
    if s != [] {
      assert s == [s[0]] + s[1..];
      DistinctMultiset(s[1..], x);
      assert forall y :: y in s[1..] ==> y.id != s[0].id;
    }
  }

  lemma DistinctKeyed(s: seq<Target>)
    requires DistinctIDs(s)
    ensures Keyed(s, ID)
  {
    forall x, y | x in s && y in s && ID(x) == ID(y) ensures x == y {
      var i :| 0 <= i < |s| && s[i] == x;
      var j :| 0 <= j < |s| && s[j] == y;
    }
  }

  /** Listing the same targets, or a target's types, in another order keeps the canonical form. */
  lemma SameSetSameCanonical(s: seq<Target>, t: seq<Target>)
    requires DistinctIDs(s) && DistinctIDs(t) && Entries(s) == Entries(t)
    ensures Canonical(s) == Canonical(t)
  {
    SameMultiset(s, t);
    DistinctKeyed(CanonAll(s));
    assert Keyed(Canonical(s), ID) by {
      forall x | x in Canonical(s) ensures x in CanonAll(s) { assert x in multiset(Canonical(s)); }
    }
    SortedUnique(Canonical(s), Canonical(t), ID);
  }

  lemma SameMultiset(s: seq<Target>, t: seq<Target>)
    requires DistinctIDs(s) && DistinctIDs(t) && Entries(s) == Entries(t)
    ensures multiset(CanonAll(s)) == multiset(CanonAll(t))
  {
    var a, b := CanonAll(s), CanonAll(t);
    forall x: Target ensures multiset(a)[x] == multiset(b)[x] {
      if x in a { CanonTransfer(s, t, x); }
      if x in b { CanonTransfer(t, s, x); }
      DistinctMultiset(a, x);
      DistinctMultiset(b, x);
    }
  }

  lemma CanonTransfer(s: seq<Target>, t: seq<Target>, x: Target)
    requires Entries(s) == Entries(t) && x in CanonAll(s)
    ensures x in CanonAll(t)
  {
    var i :| 0 <= i < |s| && CanonAll(s)[i] == x;
    assert EntryOf(s[i]) in Entries(t);
    var u :| u in t && EntryOf(u) == EntryOf(s[i]);
    var j :| 0 <= j < |t| && t[j] == u;
    CanonByEntry(s[i], u);
    assert CanonAll(t)[j] == x;
  }

  /** Nothing is lost: equal hashed texts come from equal parameters and equal target sets. */
  lemma SamePayloadSameSet(c: Config, s: seq<Target>, d: Config, t: seq<Target>)
    requires PayloadOf(c, s) == PayloadOf(d, t)
    ensures c == d && Canonical(s) == Canonical(t) && Entries(s) == Entries(t)
  {
    PayloadInjective(c, Canonical(s), d, Canonical(t));
    EntriesOfCanonical(s);
    EntriesOfCanonical(t);
  }

  lemma EntriesOfCanonical(s: seq<Target>)
    ensures Entries(Canonical(s)) == Entries(s)
  {
    var a, c := CanonAll(s), Canonical(s);
    forall e | e in Entries(s) ensures e in Entries(c) {
      var t :| t in s && EntryOf(t) == e;
      var i :| 0 <= i < |s| && s[i] == t;
      assert a[i] in multiset(c);
      assert EntryOf(a[i]) == e;
    }
    forall e | e in Entries(c) ensures e in Entries(s) {
      var t :| t in c && EntryOf(t) == e;
      assert t in multiset(a);
      var i :| 0 <= i < |s| && a[i] == t;
      assert EntryOf(s[i]) == e;
    }
  }

  /** The two texts do not meet in the same 128-bit ID. */
  ghost predicate NoCollision(h: string -> Digest, p: string, q: string) {
    UuidText(Stamp(h(p))) == UuidText(Stamp(h(q))) ==> p == q
  }

  lemma IdentityOfTheSet(h: string -> Digest, c: Config, s: seq<Target>, d: Config, t: seq<Target>)
    requires DistinctIDs(s) && DistinctIDs(t)
    requires NoCollision(h, PayloadOf(c, s), PayloadOf(d, t))
    ensures Identify(h, c, s) == Identify(h, d, t) <==> c == d && Entries(s) == Entries(t)
  {
    if c == d && Entries(s) == Entries(t) { SameSetSameCanonical(s, t); }
    if Identify(h, c, s) == Identify(h, d, t) { SamePayloadSameSet(c, s, d, t); }
  }

  /** A list the sort may leave behind: `sort.Slice` orders by ID only and is not stable. */
  ghost predicate Arrangement(ts: seq<Target>, a: seq<Target>) {
    SortedBy(a, ID) && multiset(a) == multiset(CanonAll(ts))
  }

  /** The sort decides the hashed list exactly when no two entries share an ID but differ. */
  lemma CanonicalDeterminedIff(ts: seq<Target>)
    ensures (forall a, b :: Arrangement(ts, a) && Arrangement(ts, b) ==> a == b) <==> Keyed(CanonAll(ts), ID)
  {
    if Keyed(CanonAll(ts), ID) {
      forall a, b | Arrangement(ts, a) && Arrangement(ts, b) ensures a == b {
        assert forall x :: x in a ==> x in multiset(a);
        SortedUnique(a, b, ID);
      }
    } else {
      var a, b := TwoArrangements(ts);
    }
  }

  lemma TwoArrangements(ts: seq<Target>) returns (a: seq<Target>, b: seq<Target>)
    requires !Keyed(CanonAll(ts), ID)
    ensures Arrangement(ts, a) && Arrangement(ts, b) && a != b
  {
    var c := CanonAll(ts);
    var x, y :| x in c && y in c && ID(x) == ID(y) && x != y;
    a := SortBy(c, ID);
    var i, j := Position(c, x), Position(c, y);
    SwapEqualKeys(a, i, j, ID);
    b := a[i := a[j]][j := a[i]];
    assert a[i] != b[i];
  }

  ghost function Position(c: seq<Target>, x: Target): (i: nat)
    requires x in c
    ensures i < |SortBy(c, ID)| && SortBy(c, ID)[i] == x
  {
    assert x in multiset(SortBy(c, ID));
    var i :| 0 <= i < |SortBy(c, ID)| && SortBy(c, ID)[i] == x;
    i
  }

  // ----- The method, over the caller's slices --------------------------------------------

  /** A target as the caller holds it: the type list is a mutable slice. */
  datatype Slice = Slice(id: string, address: string, types: array<string>)

  /** `sort.Strings`: the library routine, in place. */
  method SortStrings(a: array<string>)
    modifies a
    ensures a[..] == SortBy(old(a[..]), Self)
  {
    var s := SortBy(a[..], Self);
    assert |multiset(s)| == |multiset(a[..])|;
    forall i | 0 <= i < a.Length { a[i] := s[i]; }
    assert a[..] == s;
  }

  /** `sort.Slice` by target ID, in place. */
  method SortTargets(a: array<Target>)
    modifies a
    ensures a[..] == SortBy(old(a[..]), ID)
  {
    var s := SortBy(a[..], ID);
    assert |multiset(s)| == |multiset(a[..])|;
    forall i | 0 <= i < a.Length { a[i] := s[i]; }
    assert a[..] == s;
  }

  method CanonSlice(t: Slice, ghost view: Target) returns (c: Target)
    requires view == Target(t.id, t.address, t.types[..])
    ensures c == Canon(view)
  {
    var types := new string[t.types.Length](k requires 0 <= k < t.types.Length reads t.types => t.types[k]);
    assert types[..] == t.types[..];
    SortStrings(types);
    c := Target(t.id, t.address, types[..]);
  }

  /** A version 5 UUID: hash, stamp, print. */
  method NameBased(h: string -> Digest, payload: string) returns (id: string)
    ensures id == UuidText(Stamp(h(payload)))
  {
    id := FormatUUID(Stamp(h(payload)));
  }

  /** A copy of every entry with its type list sorted. `view` is what the caller's slices hold. */
  method CopyTargets(targets: array<Slice>, ghost view: seq<Target>) returns (out: seq<Target>)
    requires |view| == targets.Length
    requires forall k :: 0 <= k < targets.Length ==>
      view[k] == Target(targets[k].id, targets[k].address, targets[k].types[..])
    ensures out == CanonAll(view)
  {
    out := [];
    for i := 0 to targets.Length
      invariant |out| == i && forall k :: 0 <= k < i ==> out[k] == Canon(view[k])
    {
      var c := CanonSlice(targets[i], view[i]);
      out := out + [c];
    }
  }

  /** Sorts copies only: without a `modifies` clause the caller's slices cannot change. */
  method ConfigID(h: string -> Digest, cfg: Config, targets: array<Slice>, ghost view: seq<Target>) returns (id: string)
    requires |view| == targets.Length
    requires forall k :: 0 <= k < targets.Length ==>
      view[k] == Target(targets[k].id, targets[k].address, targets[k].types[..])
    ensures id == Identify(h, cfg, view)
  {
    var copies := CopyTargets(targets, view);
    var canonical := new Target[|copies|](i requires 0 <= i < |copies| => copies[i]);
    assert canonical[..] == copies;
    SortTargets(canonical);
    var payload := Payload(cfg, canonical[..]);
    id := NameBased(h, payload);
  }
}
