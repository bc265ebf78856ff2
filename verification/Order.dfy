/** Strings ordered by code point (the byte order of UTF-8), and sorting.
    The program relies on this order in every SQL `ORDER BY` and every `sort.Strings`. */
module Order {

  /** Strict lexicographic order. */
  predicate Less(a: string, b: string) {
    if b == "" then false
    else if a == "" then true
    else a[0] < b[0] || (a[0] == b[0] && Less(a[1..], b[1..]))
  }

  /** `a` and `b` agree below `i`. */
  predicate AgreeTo(a: string, b: string, i: nat)
    requires i <= |a| && i <= |b|
  {
    forall j :: 0 <= j < i ==> a[j] == b[j]
  }

  /** At the first difference `a` has the smaller character, or has ended. */
  predicate SmallerAt(a: string, b: string, i: nat) {
    i <= |a| && i < |b| && AgreeTo(a, b, i) && (i == |a| || a[i] < b[i])
  }

  /** That is what the order means. */
  lemma {:induction false} LessIff(a: string, b: string)
    ensures Less(a, b) <==> exists i | 0 <= i < |b| :: SmallerAt(a, b, i)
  {
    if a != "" && b != "" && a[0] == b[0] {
      LessIff(a[1..], b[1..]);
      if i :| 0 <= i < |b[1..]| && SmallerAt(a[1..], b[1..], i) {
        assert forall j :: 0 < j < i + 1 ==> a[j] == a[1..][j - 1] && b[j] == b[1..][j - 1];
        assert SmallerAt(a, b, i + 1);
      }
      if i :| 0 <= i < |b| && SmallerAt(a, b, i) {
        assert i > 0;
        assert SmallerAt(a[1..], b[1..], i - 1);
      }
    } else if b != "" && (a == "" || a[0] < b[0]) {
      assert SmallerAt(a, b, 0);
    } else if i :| 0 <= i < |b| && SmallerAt(a, b, i) {
      SmallerHead(a, b, i);
    }
  }

  lemma SmallerHead(a: string, b: string, i: nat)
    requires SmallerAt(a, b, i)
    ensures a == "" || a[0] < b[0] || a[0] == b[0]
  {
    assert i > 0 ==> a[0] == b[0];
  }

  lemma {:induction false} LessIrreflexive(a: string)
    ensures !Less(a, a)
  {
    if a != "" { LessIrreflexive(a[1..]); }
  }

  lemma {:induction false} LessTransitive(a: string, b: string, c: string)
    requires Less(a, b) && Less(b, c)
    ensures Less(a, c)
  {
    if a != "" && a[0] == b[0] == c[0] { LessTransitive(a[1..], b[1..], c[1..]); }
  }

  lemma {:induction false} LessTotal(a: string, b: string)
    ensures a == b || Less(a, b) || Less(b, a)
  {
    if a != "" && b != "" && a[0] == b[0] {
      LessTotal(a[1..], b[1..]);
      assert a == [a[0]] + a[1..] && b == [b[0]] + b[1..];
    }
  }

  lemma LessAsymmetric(a: string, b: string)
    requires Less(a, b)
    ensures !Less(b, a) && a != b
  {
    LessIrreflexive(a);
    if Less(b, a) { LessTransitive(a, b, a); }
  }

  // ----- Sets in ascending order ---------------------------------------------------------

  predicate StrictlyAscending(s: seq<string>) {
    forall i, j :: 0 <= i < j < |s| ==> Less(s[i], s[j])
  }

  function Elements<T>(s: seq<T>): set<T> { set x | x in s }

  /** An order in which the runtime may visit the keys of a map. */
  predicate IsOrder(order: seq<string>, keys: set<string>) {
    Elements(order) == keys && forall i, j :: 0 <= i < j < |order| ==> order[i] != order[j]
  }

  predicate IsLeast(x: string, s: set<string>) {
    x in s && forall y :: y in s && y != x ==> Less(x, y)
  }

  lemma {:induction false} LeastExists(s: set<string>)
    requires s != {}
    ensures exists x :: IsLeast(x, s)
  {
    var c :| c in s;
    if s == {c} {
      assert IsLeast(c, s);
    } else {
      LeastExists(s - {c});
      var x :| IsLeast(x, s - {c});
      LessTotal(x, c);
      if Less(x, c) {
        assert IsLeast(x, s);
      } else {
        forall y | y in s && y != c ensures Less(c, y) {
          if y != x { LessTransitive(c, x, y); }
        }
        assert IsLeast(c, s);
      }
    }
  }

  lemma LeastUnique(x: string, y: string, s: set<string>)
    requires IsLeast(x, s) && IsLeast(y, s)
    ensures x == y
  {
    if x != y { LessAsymmetric(x, y); }
  }

  function Least(s: set<string>): (x: string)
    requires s != {}
    ensures IsLeast(x, s)
  {
    LeastExists(s);
    assert forall a, b :: IsLeast(a, s) && IsLeast(b, s) ==> a == b by {
      forall a, b | IsLeast(a, s) && IsLeast(b, s) ensures a == b { LeastUnique(a, b, s); }
    }
    var x :| IsLeast(x, s);
    x
  }

  /** The elements of a set in ascending order: what sorting the keys of a map yields. */
  function Ascending(s: set<string>): (r: seq<string>)
    ensures StrictlyAscending(r) && Elements(r) == s
  {
    if s == {} then [] else
      var x := Least(s);
      var rest := Ascending(s - {x});
      assert Elements([x] + rest) == {x} + Elements(rest);
      [x] + rest
  }

  lemma {:induction false} SubsetSize(a: set<string>, b: set<string>)
    requires a <= b
    ensures |a| <= |b|
  {
    if a != {} {
      var x :| x in a;
      SubsetSize(a - {x}, b - {x});
    }
  }

  // ----- Strictly sorted sequences are determined by their elements ----------------------

  ghost predicate Asymmetric<T(!new)>(lt: (T, T) -> bool) {
    forall x, y :: lt(x, y) ==> !lt(y, x)
  }

  ghost predicate StrictlySorted<T>(s: seq<T>, lt: (T, T) -> bool) {
    forall i, j :: 0 <= i < j < |s| ==> lt(s[i], s[j])
  }

  lemma HeadBelow<T>(a: seq<T>, x: T, lt: (T, T) -> bool)
    requires StrictlySorted(a, lt) && x in a
    ensures x == a[0] || lt(a[0], x)
  {
    var i :| 0 <= i < |a| && a[i] == x;
  }

  lemma TailMembers<T(!new)>(a: seq<T>, lt: (T, T) -> bool)
    requires a != [] && Asymmetric(lt) && StrictlySorted(a, lt)
    ensures forall x :: x in a[1..] <==> x in a && x != a[0]
  {
    forall x ensures x in a[1..] <==> x in a && x != a[0] {
      assert a == [a[0]] + a[1..];
      if x in a[1..] {
        var i :| 0 <= i < |a[1..]| && a[1..][i] == x;
        assert lt(a[0], a[i + 1]);
      }
    }
  }

  lemma {:induction false} StrictUnique<T(!new)>(a: seq<T>, b: seq<T>, lt: (T, T) -> bool)
    requires Asymmetric(lt) && StrictlySorted(a, lt) && StrictlySorted(b, lt)
    requires forall x :: x in a <==> x in b
    ensures a == b
  {
    assert a != [] ==> a[0] in b;
    assert b != [] ==> b[0] in a;
    if a != [] && b != [] {
      HeadBelow(a, b[0], lt);
      HeadBelow(b, a[0], lt);
      assert a[0] == b[0];
      TailMembers(a, lt);
      TailMembers(b, lt);
      StrictUnique(a[1..], b[1..], lt);
      assert a == [a[0]] + a[1..] && b == [b[0]] + b[1..];
    }
  }

  lemma AscendingUnique(a: seq<string>, b: seq<string>)
    requires StrictlyAscending(a) && StrictlyAscending(b) && Elements(a) == Elements(b)
    ensures a == b
  {
    forall x, y | Less(x, y) ensures !Less(y, x) { LessAsymmetric(x, y); }
    forall x ensures x in a <==> x in b { assert x in a <==> x in Elements(a); assert x in b <==> x in Elements(b); }
    StrictUnique(a, b, Less);
  }

  // ----- Sorting by a key ----------------------------------------------------------------

  function Self(s: string): string { s }

  predicate SortedBy<T>(s: seq<T>, key: T -> string) {
    forall i, j :: 0 <= i < j < |s| ==> !Less(key(s[j]), key(s[i]))
  }

  function Insert<T>(x: T, s: seq<T>, key: T -> string): (r: seq<T>)
    ensures multiset(r) == multiset(s) + multiset{x}
  {
    if s == [] then [x]
    else if Less(key(s[0]), key(x)) then
      assert s == [s[0]] + s[1..];
      [s[0]] + Insert(x, s[1..], key)
    else [x] + s
  }

  lemma {:induction false} InsertSorted<T>(x: T, s: seq<T>, key: T -> string)
    requires SortedBy(s, key)
    ensures SortedBy(Insert(x, s, key), key)
  {
    if s == [] {
    } else if Less(key(s[0]), key(x)) {
      InsertSorted(x, s[1..], key);
      var r := Insert(x, s[1..], key);
      forall j | 0 <= j < |r| ensures !Less(key(r[j]), key(s[0])) {
        assert r[j] in multiset(r);
        assert r[j] == x || r[j] in s[1..];
        if r[j] == x {
          LessAsymmetric(key(s[0]), key(x));
        }
      }
    } else {
      forall j | 0 <= j < |s| ensures !Less(key(s[j]), key(x)) {
        if j > 0 && Less(key(s[j]), key(x)) {
          LessTotal(key(s[0]), key(x));
          if key(s[0]) != key(x) { LessTransitive(key(s[j]), key(x), key(s[0])); }
        }
      }
    }
  }

  /** Some sorted rearrangement; `SortedUnique` says when it is the only one. */
  function SortBy<T>(s: seq<T>, key: T -> string): (r: seq<T>)
    ensures SortedBy(r, key) && multiset(r) == multiset(s)
  {
    if s == [] then []
    else
      var rest := SortBy(s[1..], key);
      InsertSorted(s[0], rest, key);
      assert s == [s[0]] + s[1..];
      Insert(s[0], rest, key)
  }

  /** Elements with equal keys are equal. */
  ghost predicate Keyed<T>(s: seq<T>, key: T -> string) {
    forall x, y :: x in s && y in s && key(x) == key(y) ==> x == y
  }

  lemma SameHeads<T>(a: seq<T>, b: seq<T>, key: T -> string)
    requires SortedBy(a, key) && SortedBy(b, key) && multiset(a) == multiset(b) && Keyed(a, key)
    requires a != []
    ensures b != [] && a[0] == b[0]
  {
    assert b != [] by { assert a[0] in multiset(b); }
    assert b[0] in multiset(a) && a[0] in multiset(b);
    LessTotal(key(a[0]), key(b[0]));
  }

  lemma SameTails<T>(a: seq<T>, b: seq<T>)
    requires a != [] && b != [] && a[0] == b[0] && multiset(a) == multiset(b)
    ensures multiset(a[1..]) == multiset(b[1..])
  {
    assert a == [a[0]] + a[1..] && b == [b[0]] + b[1..];
    assert multiset(a[1..]) == multiset(a) - multiset{a[0]};
    assert multiset(b[1..]) == multiset(b) - multiset{b[0]};
  }

  lemma {:induction false} SortedUnique<T>(a: seq<T>, b: seq<T>, key: T -> string)
    requires SortedBy(a, key) && SortedBy(b, key) && multiset(a) == multiset(b) && Keyed(a, key)
    ensures a == b
    decreases a
  {
    if a == [] {
      assert |multiset(a)| == |multiset(b)|;
    } else {
      SameHeads(a, b, key);
      SameTails(a, b);
      SortedUnique(a[1..], b[1..], key);
      assert a == [a[0]] + a[1..] && b == [b[0]] + b[1..];
    }
  }

  lemma SwapEqualKeys<T>(s: seq<T>, i: nat, j: nat, key: T -> string)
    requires i < |s| && j < |s| && key(s[i]) == key(s[j]) && SortedBy(s, key)
    ensures var t := s[i := s[j]][j := s[i]]; SortedBy(t, key) && multiset(t) == multiset(s)
  {
    var t := s[i := s[j]][j := s[i]];
    assert forall k :: 0 <= k < |s| ==> key(t[k]) == key(s[k]);
  }

  /** Sorting a list without repetitions yields its elements in ascending order. */
  lemma SortDistinct(s: seq<string>)
    requires forall i, j :: 0 <= i < j < |s| ==> s[i] != s[j]
    ensures SortBy(s, Self) == Ascending(Elements(s))
  {
    var r := SortBy(s, Self);
    forall i, j | 0 <= i < j < |r| ensures Less(r[i], r[j]) {
      assert !Less(Self(r[j]), Self(r[i]));
      LessTotal(r[i], r[j]);
      if r[i] == r[j] {
        OccursTwice(r, i, j);
        OccursOnce(s, r[i]);
      }
    }
    SameElements(r, s);
    AscendingUnique(r, Ascending(Elements(s)));
  }

  lemma SameElements<T>(r: seq<T>, s: seq<T>)
    requires multiset(r) == multiset(s)
    ensures Elements(r) == Elements(s)
  {
    assert forall x :: x in r <==> x in multiset(r);
    assert forall x :: x in s <==> x in multiset(s);
  }

  lemma OccursTwice(r: seq<string>, i: nat, j: nat)
    requires i < j < |r| && r[i] == r[j]
    ensures multiset(r)[r[i]] >= 2
  {
    assert r == r[..j] + r[j..];
    assert r[i] == r[..j][i] && r[j] == r[j..][0];
  }

  lemma {:induction false} OccursOnce(s: seq<string>, x: string)
    requires forall i, j :: 0 <= i < j < |s| ==> s[i] != s[j]
    ensures multiset(s)[x] <= 1
  {
    if s != [] {
      assert s == [s[0]] + s[1..];
      OccursOnce(s[1..], x);
      assert s[0] !in s[1..];
    }
  }
}
