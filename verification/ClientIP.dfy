/** The address a request is attributed to: the right-to-left walk over X-Forwarded-For. */
module ClientIP {
  import opened Wire
  import opened Text

  /** The library routines: `net.SplitHostPort` (host, if it succeeds) and `net.ParseIP` (does it parse). */
  datatype Library = Library(splitHostPort: string -> Option<string>, parses: string -> bool)

  /** A network, as the test whether it holds an address that parses. */
  type Network = string -> bool

  function TrimBrackets(s: string): string {
    if s != "" && s[0] in {'[', ']'} then TrimBrackets(s[1..])
    else if s != "" && s[|s| - 1] in {'[', ']'} then TrimBrackets(s[..|s| - 1])
    else s
  }

  function HostOnly(lib: Library, addr: string): string {
    if addr == "" then ""
    else match lib.splitHostPort(addr) case Some(host) => host case None => TrimBrackets(addr)
  }

  predicate InNetworks(lib: Library, nets: seq<Network>, addr: string) {
    lib.parses(addr) && exists i :: 0 <= i < |nets| && nets[i](addr)
  }

  method Contains(lib: Library, nets: seq<Network>, addr: string) returns (found: bool)
    ensures found == InNetworks(lib, nets, addr)
  {
    if !lib.parses(addr) {
      return false;
    }
    for i := 0 to |nets|
      invariant forall k :: 0 <= k < i ==> !nets[k](addr)
    {
      if nets[i](addr) {
        return true;
      }
    }
    found := false;
  }

  function Address(lib: Library, entry: string): string { HostOnly(lib, TrimSpace(entry)) }

  predicate Parseable(lib: Library, entry: string) {
    Address(lib, entry) != "" && lib.parses(Address(lib, entry))
  }

  /** An address outside the trusted networks. */
  predicate Untrusted(lib: Library, nets: seq<Network>, entry: string) {
    Parseable(lib, entry) && !InNetworks(lib, nets, Address(lib, entry))
  }

  /** `entry` is the last untrusted entry of the list. */
  ghost predicate IsClient(lib: Library, nets: seq<Network>, entries: seq<string>, i: int) {
    && 0 <= i < |entries| && Untrusted(lib, nets, entries[i])
    && forall k :: i < k < |entries| ==> !Untrusted(lib, nets, entries[k])
  }

  ghost predicate IsFirstParseable(lib: Library, entries: seq<string>, i: int) {
    && 0 <= i < |entries| && Parseable(lib, entries[i])
    && forall k :: 0 <= k < i ==> !Parseable(lib, entries[k])
  }

  /** What `addr` must be for a peer and a header. */
  ghost predicate Attributed(lib: Library, remote: string, header: string, nets: seq<Network>, addr: string) {
    var peer := HostOnly(lib, remote);
    var entries := Split(header, {','});
    if !InNetworks(lib, nets, peer) then addr == peer
    else if i :| IsClient(lib, nets, entries, i) then addr == Address(lib, entries[i])
    else if i :| IsFirstParseable(lib, entries, i) then addr == Address(lib, entries[i])
    else addr == peer
  }

  /** The last untrusted entry, looked for from the right end. */
  method WalkBack(lib: Library, entries: seq<string>, nets: seq<Network>) returns (addr: Option<string>)
    ensures addr.Some? ==> exists i :: IsClient(lib, nets, entries, i) && addr.value == Address(lib, entries[i])
    ensures addr == None ==> forall k :: 0 <= k < |entries| ==> !Untrusted(lib, nets, entries[k])
  {
    var i := |entries| - 1;
    while i >= 0
      invariant -1 <= i < |entries|
      invariant forall k :: i < k < |entries| ==> !Untrusted(lib, nets, entries[k])
    {
      var a := HostOnly(lib, TrimSpace(entries[i]));
      if a == "" || !lib.parses(a) {
        i := i - 1;
        continue;
      }
      var trusted := Contains(lib, nets, a);
      if trusted {
        i := i - 1;
        continue;
      }
      assert IsClient(lib, nets, entries, i);
      return Some(a);
    }
    addr := None;
  }

  method From(lib: Library, remote: string, header: string, nets: seq<Network>) returns (addr: string)
    ensures Attributed(lib, remote, header, nets, addr)
  {
    var peer := HostOnly(lib, remote);
    var peerTrusted := Contains(lib, nets, peer);
    if |nets| == 0 || !peerTrusted {
      return peer;
    }
    var entries := Split(header, {','});
    var client := WalkBack(lib, entries, nets);
    if client.Some? {
      ghost var i :| IsClient(lib, nets, entries, i) && client.value == Address(lib, entries[i]);
      AttributedByClient(lib, remote, header, nets, client.value, i);
      return client.value;
    }
    for j := 0 to |entries|
      invariant forall k :: 0 <= k < j ==> !Parseable(lib, entries[k])
    {
      addr := HostOnly(lib, TrimSpace(entries[j]));
      if addr != "" && lib.parses(addr) {
        assert IsFirstParseable(lib, entries, j);
        return addr;
      }
    }
    addr := peer;
  }

  /** The rules leave one answer. */
  lemma AttributedUnique(lib: Library, remote: string, header: string, nets: seq<Network>, a: string, b: string)
    requires Attributed(lib, remote, header, nets, a) && Attributed(lib, remote, header, nets, b)
    ensures a == b
  {
  }

  // ----- In terms of the library alone ---------------------------------------------------

  predicate AllBrackets(s: string) { forall i :: 0 <= i < |s| ==> s[i] in {'[', ']'} }

  predicate Bare(s: string) { s != "" ==> s[0] !in {'[', ']'} && s[|s| - 1] !in {'[', ']'} }

  lemma {:induction false} TrimLeft(l: string, x: string)
    requires AllBrackets(l)
    ensures TrimBrackets(l + x) == TrimBrackets(x)
  {
    if l == "" {
      assert l + x == x;
    } else {
      assert (l + x)[0] == l[0] && (l + x)[1..] == l[1..] + x;
      TrimLeft(l[1..], x);
    }
  }

  lemma {:induction false} TrimRight(t: string, r: string)
    requires t != "" && Bare(t) && AllBrackets(r)
    ensures TrimBrackets(t + r) == t
  {
    var s, k := t + r, |r| - 1;
    assert s[0] == t[0];
    if r == "" {
      assert s == t;
    } else {
      assert s[|s| - 1] == r[k] && s[..|s| - 1] == t + r[..k];
      TrimRight(t, r[..k]);
    }
  }

  lemma OuterBracketsGo(l: string, t: string, r: string)
    requires AllBrackets(l) && AllBrackets(r) && Bare(t)
    ensures TrimBrackets(l + t + r) == t
  {
    assert l + t + r == l + (t + r);
    TrimLeft(l, t + r);
    if t == "" {
      assert t + r == r + "";
      TrimLeft(r, "");
    } else {
      TrimRight(t, r);
    }
  }

  /** A peer whose address splits into host and port, and whose host is in no trusted network, is
      attributed to its host. */
  lemma PeerIsItsHost(lib: Library, remote: string, header: string, nets: seq<Network>, host: string, addr: string)
    requires remote != "" && lib.splitHostPort(remote) == Some(host)
    requires !lib.parses(host) || forall i :: 0 <= i < |nets| ==> !nets[i](host)
    ensures Attributed(lib, remote, header, nets, addr) <==> addr == host
  {
  }

  /** If that host is in one, the last entry of the header that is not decides. */
  lemma TrustedHostAsksHeader(lib: Library, remote: string, header: string, nets: seq<Network>, host: string, i: int, addr: string)
    requires remote != "" && lib.splitHostPort(remote) == Some(host) && lib.parses(host) && exists n :: 0 <= n < |nets| && nets[n](host)
    requires IsClient(lib, nets, Split(header, {','}), i)
    ensures Attributed(lib, remote, header, nets, addr) <==> addr == Address(lib, Split(header, {','})[i])
  {
    AttributedByClient(lib, remote, header, nets, addr, i);
  }

  /** One that does not split is attributed as it is, with its outer brackets gone. */
  lemma UnsplitPeerIsBare(lib: Library, l: string, t: string, r: string, header: string, nets: seq<Network>, addr: string)
    requires AllBrackets(l) && AllBrackets(r) && Bare(t) && l + t + r != "" && lib.splitHostPort(l + t + r) == None
    requires !lib.parses(t) || forall i :: 0 <= i < |nets| ==> !nets[i](t)
    ensures Attributed(lib, l + t + r, header, nets, addr) <==> addr == t
  {
    OuterBracketsGo(l, t, r);
  }

  /** Two spellings of one host: they split to it, whatever the ports, or differ in outer brackets only. */
  predicate SameHost(lib: Library, a: string, b: string) {
    || a == b
    || (a != "" && b != "" && lib.splitHostPort(a).Some? && lib.splitHostPort(a) == lib.splitHostPort(b))
    || (a != "" && b != "" && lib.splitHostPort(a) == None && lib.splitHostPort(b) == None && TrimBrackets(a) == TrimBrackets(b))
  }

  /** Peers with the same host are attributed alike, so the port never matters. */
  lemma PeerPortNeverMatters(lib: Library, a: string, b: string, header: string, nets: seq<Network>, addr: string)
    requires SameHost(lib, a, b)
    ensures Attributed(lib, a, header, nets, addr) <==> Attributed(lib, b, header, nets, addr)
  {
  }

  /** So do headers whose entries name the same hosts, ports, spaces and brackets aside. */
  lemma EntryPortNeverMatters(lib: Library, remote: string, h: string, g: string, nets: seq<Network>, addr: string)
    requires var es, fs := Split(h, {','}), Split(g, {','});
             |es| == |fs| && forall k :: 0 <= k < |es| ==> SameHost(lib, TrimSpace(es[k]), TrimSpace(fs[k]))
    ensures Attributed(lib, remote, h, nets, addr) <==> Attributed(lib, remote, g, nets, addr)
  {
    var es, fs := Split(h, {','}), Split(g, {','});
    forall k | 0 <= k < |es| ensures Address(lib, es[k]) == Address(lib, fs[k]) {}
    forall i ensures IsClient(lib, nets, es, i) <==> IsClient(lib, nets, fs, i) { SameClient(lib, nets, es, fs, i); }
    forall i ensures IsFirstParseable(lib, es, i) <==> IsFirstParseable(lib, fs, i) { SameFirst(lib, es, fs, i); }
    if i :| IsClient(lib, nets, es, i) {
      AttributedByClient(lib, remote, h, nets, addr, i);
      AttributedByClient(lib, remote, g, nets, addr, i);
    } else if i :| IsFirstParseable(lib, es, i) {
      AttributedByFirst(lib, remote, h, nets, addr, i);
      AttributedByFirst(lib, remote, g, nets, addr, i);
    }
  }

  lemma SameClient(lib: Library, nets: seq<Network>, es: seq<string>, fs: seq<string>, i: int)
    requires |es| == |fs| && forall k :: 0 <= k < |es| ==> Address(lib, es[k]) == Address(lib, fs[k])
    ensures IsClient(lib, nets, es, i) <==> IsClient(lib, nets, fs, i)
  {
    assert forall k :: 0 <= k < |es| ==> (Untrusted(lib, nets, es[k]) <==> Untrusted(lib, nets, fs[k]));
  }

  lemma SameFirst(lib: Library, es: seq<string>, fs: seq<string>, i: int)
    requires |es| == |fs| && forall k :: 0 <= k < |es| ==> Address(lib, es[k]) == Address(lib, fs[k])
    ensures IsFirstParseable(lib, es, i) <==> IsFirstParseable(lib, fs, i)
  {
    assert forall k :: 0 <= k < |es| ==> (Parseable(lib, es[k]) <==> Parseable(lib, fs[k]));
  }

  /** A request is attributed to "" exactly when the peer has no host part and the header does not
      settle it: a peer of the form `host:port` with a host never is. */
  lemma AttributedEmptyIff(lib: Library, remote: string, header: string, nets: seq<Network>)
    ensures Attributed(lib, remote, header, nets, "") <==>
              && HostOnly(lib, remote) == ""
              && (!InNetworks(lib, nets, "") || forall k :: 0 <= k < |Split(header, {','})| ==> !Parseable(lib, Split(header, {','})[k]))
  {
    var entries := Split(header, {','});
    if i :| IsClient(lib, nets, entries, i) {
      AttributedByClient(lib, remote, header, nets, "", i);
      assert Parseable(lib, entries[i]);
    } else if k :| 0 <= k < |entries| && Parseable(lib, entries[k]) {
      FirstExists(lib, entries, k);
      var i :| IsFirstParseable(lib, entries, i);
      AttributedByFirst(lib, remote, header, nets, "", i);
    }
  }

  lemma AttributedByFirst(lib: Library, remote: string, header: string, nets: seq<Network>, addr: string, i: int)
    requires var entries := Split(header, {','});
             IsFirstParseable(lib, entries, i) && !exists j :: IsClient(lib, nets, entries, j)
    ensures Attributed(lib, remote, header, nets, addr) <==>
              addr == if InNetworks(lib, nets, HostOnly(lib, remote)) then Address(lib, Split(header, {','})[i]) else HostOnly(lib, remote)
  {
    var entries := Split(header, {','});
    forall j | IsFirstParseable(lib, entries, j) ensures j == i {}
  }

  lemma {:induction false} FirstExists(lib: Library, entries: seq<string>, n: nat)
    requires n < |entries| && Parseable(lib, entries[n])
    ensures exists i :: IsFirstParseable(lib, entries, i)
  {
    if k :| 0 <= k < n && Parseable(lib, entries[k]) {
      FirstExists(lib, entries, k);
    } else {
      assert IsFirstParseable(lib, entries, n);
    }
  }

  /** "" does not parse, so only a peer without a host part is attributed to "", whatever the header. */
  lemma EmptyOnlyFromPeer(lib: Library, remote: string, header: string, nets: seq<Network>)
    requires !lib.parses("")
    ensures Attributed(lib, remote, header, nets, "") <==> HostOnly(lib, remote) == ""
  {
    AttributedEmptyIff(lib, remote, header, nets);
  }

  lemma AttributedByClient(lib: Library, remote: string, header: string, nets: seq<Network>, addr: string, i: int)
    requires IsClient(lib, nets, Split(header, {','}), i)
    ensures Attributed(lib, remote, header, nets, addr) <==>
              addr == if InNetworks(lib, nets, HostOnly(lib, remote)) then Address(lib, Split(header, {','})[i]) else HostOnly(lib, remote)
  {
    var entries := Split(header, {','});
    forall j | IsClient(lib, nets, entries, j) ensures j == i { ClientUnique(lib, nets, entries, j, i); }
  }

  /** Whatever stands before a comma is powerless once an untrusted address stands after it. */
  lemma LeftOfClientIgnored(lib: Library, remote: string, before: string, after: string, nets: seq<Network>, addr: string, i: int)
    requires IsClient(lib, nets, Split(after, {','}), i)
    ensures Attributed(lib, remote, before + "," + after, nets, addr) <==> Attributed(lib, remote, after, nets, addr)
  {
    var l, r := Split(before, {','}), Split(after, {','});
    SplitAppend(before, ',', after, {','});
    ClientAfter(lib, nets, l, r, i);
    AttributedByClient(lib, remote, before + "," + after, nets, addr, |l| + i);
    AttributedByClient(lib, remote, after, nets, addr, i);
  }

  lemma ClientAfter(lib: Library, nets: seq<Network>, l: seq<string>, r: seq<string>, i: int)
    requires IsClient(lib, nets, r, i)
    ensures IsClient(lib, nets, l + r, |l| + i) && (l + r)[|l| + i] == r[i]
  {
    forall k | |l| + i < k < |l + r| ensures !Untrusted(lib, nets, (l + r)[k]) { assert (l + r)[k] == r[k - |l|]; }
  }

  lemma ClientUnique(lib: Library, nets: seq<Network>, entries: seq<string>, i: int, j: int)
    requires IsClient(lib, nets, entries, i) && IsClient(lib, nets, entries, j)
    ensures i == j
  {
  }

  /** Some untrusted entry means there is a last one. */
  lemma {:induction false} ClientExists(lib: Library, nets: seq<Network>, entries: seq<string>, n: nat)
    requires n < |entries| && Untrusted(lib, nets, entries[n])
    ensures exists i :: IsClient(lib, nets, entries, i)
    decreases |entries| - n
  {
    if k :| n < k < |entries| && Untrusted(lib, nets, entries[k]) {
      ClientExists(lib, nets, entries, k);
    } else {
      assert IsClient(lib, nets, entries, n);
    }
  }

  /** From a trusted peer, two headers that agree after some comma, with an untrusted address there,
      are attributed to the same one: the last untrusted address of what they share. */
  lemma SpoofedPrefixIrrelevant(lib: Library, remote: string, x: string, y: string, after: string, nets: seq<Network>,
                                n: nat, a: string, b: string)
    requires n < |Split(after, {','})| && Untrusted(lib, nets, Split(after, {','})[n])
    requires Attributed(lib, remote, x + "," + after, nets, a) && Attributed(lib, remote, y + "," + after, nets, b)
    ensures a == b
    ensures InNetworks(lib, nets, HostOnly(lib, remote)) ==>
              exists i :: IsClient(lib, nets, Split(after, {','}), i) && a == Address(lib, Split(after, {','})[i])
  {
    ClientExists(lib, nets, Split(after, {','}), n);
    var i :| IsClient(lib, nets, Split(after, {','}), i);
    LeftOfClientIgnored(lib, remote, x, after, nets, a, i);
    LeftOfClientIgnored(lib, remote, y, after, nets, b, i);
    AttributedByClient(lib, remote, after, nets, a, i);
    AttributedByClient(lib, remote, after, nets, b, i);
  }
}
