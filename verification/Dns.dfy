/**
 The DNS controller (pkg/apiserver/dns/controller.go): the conflict check that keeps routing unambiguous, and
 the key under which a host is published.
 */
module Dns {
  import opened Sequences

  datatype Mapping = Mapping(path: string, service: string)

  datatype DNS = DNS(name: string, host: string, paths: seq<Mapping>)

  datatype Location = Location(dnsName: string, path: string)

  predicate HasPath(d: DNS, path: string) {
    exists m | m in d.paths :: m.path == path
  }

  predicate Clash(p: string, q: string) {
    p <= q || q <= p
  }

  /** A request URI matches the exact location of a path or the prefix location of the path and a slash. */
  predicate Matches(uri: string, path: string) {
    uri == path || path + "/" <= uri
  }

  /** No path of one is a prefix of a path of the other. */
  ghost predicate Apart(a: DNS, b: DNS) {
    a.host == b.host ==> forall p, q | HasPath(a, p) && HasPath(b, q) :: !Clash(p, q)
  }

  ghost predicate PrefixFree(ds: set<DNS>) {
    forall a, b | a in ds && b in ds && a != b :: Apart(a, b)
  }

  predicate Valid(d: DNS, resolves: string -> bool) {
    forall m | m in d.paths :: resolves(m.service)
  }

  /** All services resolve and no path of the new object clashes with one of an old object on the same host. */
  ghost predicate Accepted(dns: map<string, DNS>, added: DNS, resolves: string -> bool) {
    && (forall k | k in dns :: Valid(dns[k], resolves) && Apart(dns[k], added))
    && Valid(added, resolves)
  }

  /** Some old object has a path on this host. */
  predicate HostKnown(dns: map<string, DNS>, host: string) {
    exists k | k in dns :: dns[k].host == host && dns[k].paths != []
  }

  /** The host has a location already. */
  lemma HostKnownIff(dns: map<string, DNS>, host: string)
    ensures HostKnown(dns, host) <==> exists k, m :: k in dns && dns[k].host == host && m in dns[k].paths
  {
    if k, m :| k in dns && dns[k].host == host && m in dns[k].paths {
      assert dns[k].paths != [];
    }
    if k :| k in dns && dns[k].host == host && dns[k].paths != [] {
      assert dns[k].paths[0] in dns[k].paths;
    }
  }

  /** The configuration has a location for the path of an object. */
  predicate Configured(locations: map<string, seq<Location>>, host: string, dnsName: string, path: string) {
    host in locations && Location(dnsName, path) in locations[host]
  }

  // ---- the key of a host ----

  function Split(s: string, c: char): (parts: seq<string>)
    ensures parts != []
  {
    if s == [] then [[]]
    else
      var rest := Split(s[1..], c);
      if s[0] == c then [[]] + rest else [[s[0]] + rest[0]] + rest[1..]
  }

  function Join(parts: seq<string>, c: char): string
    requires parts != []
  {
    if |parts| == 1 then parts[0] else parts[0] + [c] + Join(parts[1..], c)
  }

  function Reverse(parts: seq<string>): (r: seq<string>)
    ensures |r| == |parts|
  {
    if parts == [] then [] else Reverse(parts[1..]) + [parts[0]]
  }

  const PREFIX := "/dns"

  /** A slash and a domain, for each domain from the last to the first. */
  function Slashed(domains: seq<string>): string {
    if domains == [] then [] else Slashed(domains[1..]) + ("/" + domains[0])
  }

  function Key(host: string): string {
    PREFIX + Slashed(Split(host, '.'))
  }

  /** The walk back: what follows the prefix and its slash, split at slashes, reversed, joined with dots. */
  function HostOf(key: string): Option<string> {
    if PREFIX + "/" <= key then Some(Join(Reverse(Split(key[|PREFIX| + 1..], '/')), '.')) else None
  }

  lemma {:induction false} JoinSplit(s: string, c: char)
    ensures Join(Split(s, c), c) == s
    ensures forall p | p in Split(s, c) :: c !in p
    ensures forall p, x | p in Split(s, c) && x in p :: x in s
  {
    if s != [] {
      JoinSplit(s[1..], c);
      var rest := Split(s[1..], c);
      if s[0] == c {
        assert ([[]] + rest)[1..] == rest;
      } else {
        var parts := [[s[0]] + rest[0]] + rest[1..];
        if |rest| > 1 {
          assert parts[1..] == rest[1..];
          assert [s[0]] + rest[0] + [c] + Join(rest[1..], c) == [s[0]] + (rest[0] + [c] + Join(rest[1..], c));
        }
        assert rest[0] in rest && forall p | p in rest[1..] :: p in rest;
      }
    }
  }

  lemma {:induction false} SplitCons(p: string, rest: string, c: char)
    requires c !in p
    ensures Split(p + [c] + rest, c) == [p] + Split(rest, c)
  {
    if p == [] {
      assert ([] + [c] + rest)[1..] == rest;
    } else {
      assert p[0] in p && forall x | x in p[1..] :: x in p;
      assert (p + [c] + rest)[1..] == p[1..] + [c] + rest;
      SplitCons(p[1..], rest, c);
      assert [p[0]] + p[1..] == p;
      assert ([p[1..]] + Split(rest, c))[1..] == Split(rest, c);
    }
  }

  lemma {:induction false} SplitWhole(p: string, c: char)
    requires c !in p
    ensures Split(p, c) == [p]
  {
    if p != [] {
      assert p[0] in p && forall x | x in p[1..] :: x in p;
      SplitWhole(p[1..], c);
      assert [p[0]] + p[1..] == p;
    }
  }

  lemma {:induction false} SplitJoin(parts: seq<string>, c: char)
    requires parts != [] && forall p | p in parts :: c !in p
    ensures Split(Join(parts, c), c) == parts
  {
    assert parts[0] in parts && forall p | p in parts[1..] :: p in parts;
    if |parts| == 1 {
      SplitWhole(parts[0], c);
    } else {
      SplitJoin(parts[1..], c);
      SplitCons(parts[0], Join(parts[1..], c), c);
    }
  }

  lemma {:induction false} ReverseAppend(a: seq<string>, x: string)
    ensures Reverse(a + [x]) == [x] + Reverse(a)
  {
    if a == [] {
      assert [] + [x] == [x];
    } else {
      assert (a + [x])[1..] == a[1..] + [x];
      ReverseAppend(a[1..], x);
    }
  }

  lemma {:induction false} ReverseTwice(a: seq<string>)
    ensures Reverse(Reverse(a)) == a
    ensures forall x | x in Reverse(a) :: x in a
  {
    if a != [] {
      ReverseTwice(a[1..]);
      ReverseAppend(Reverse(a[1..]), a[0]);
      assert forall x | x in a[1..] :: x in a;
    }
  }

  lemma {:induction false} JoinAppend(parts: seq<string>, x: string, c: char)
    requires parts != []
    ensures Join(parts + [x], c) == Join(parts, c) + [c] + x
  {
    if |parts| == 1 {
      assert (parts + [x])[1..] == [x];
    } else {
      assert (parts + [x])[1..] == parts[1..] + [x];
      JoinAppend(parts[1..], x, c);
      assert parts[0] + [c] + (Join(parts[1..], c) + [c] + x) == parts[0] + [c] + Join(parts[1..], c) + [c] + x;
    }
  }

  lemma SlashedNext(domains: seq<string>)
    requires domains != []
    ensures Slashed(domains) == Slashed(domains[1..]) + ("/" + domains[0])
    ensures Reverse(domains) == Reverse(domains[1..]) + [domains[0]]
  {
  }

  /** The builder's contents are a slash and the reversed domains joined with slashes. */
  lemma {:induction false} SlashedIsJoin(domains: seq<string>)
    requires domains != []
    ensures Slashed(domains) == "/" + Join(Reverse(domains), '/')
  {
    if |domains| == 1 {
      assert domains[1..] == [] && Reverse([]) + [domains[0]] == [domains[0]];
    } else {
      SlashedIsJoin(domains[1..]);
      hide Slashed, Join, Reverse;
      var rest, first := Join(Reverse(domains[1..]), '/'), domains[0];
      JoinAppend(Reverse(domains[1..]), first, '/');
      assert ("/" + rest) + ("/" + first) == "/" + (rest + ['/'] + first);
      SlashedNext(domains);
    }
  }

  /** What the walk back from the key of a host yields. */
  lemma KeyParts(host: string)
    ensures HostOf(Key(host)) == Some(Join(Reverse(Split(Join(Reverse(Split(host, '.')), '/'), '/')), '.'))
  {
    SlashedIsJoin(Split(host, '.'));
    var body := Join(Reverse(Split(host, '.')), '/');
    assert Key(host) == PREFIX + ("/" + body) == PREFIX + "/" + body;
    assert Key(host)[|PREFIX| + 1..] == body;
    assert PREFIX + "/" <= Key(host);
  }

  lemma {:induction false} JoinFree(parts: seq<string>, c: char, x: char)
    requires parts != [] && x != c && forall p | p in parts :: x !in p
    ensures x !in Join(parts, c)
  {
    assert parts[0] in parts && forall p | p in parts[1..] :: p in parts;
    if |parts| > 1 {
      JoinFree(parts[1..], c, x);
    }
  }

  /** The key determines the host by the walk back exactly for hosts without a slash. */
  lemma KeyInverts(host: string)
    ensures HostOf(Key(host)) == Some(host) <==> '/' !in host
  {
    KeyParts(host);
    var domains := Split(host, '.');
    JoinSplit(host, '.');
    ReverseTwice(domains);
    if '/' !in host {
      SplitJoin(Reverse(domains), '/');
    } else {
      var parts := Split(Join(Reverse(domains), '/'), '/');
      JoinSplit(Join(Reverse(domains), '/'), '/');
      ReverseTwice(parts);
      JoinFree(Reverse(parts), '.', '/');
    }
  }

  /** Distinct hosts without slashes never share a key. */
  lemma KeysDiffer(a: string, b: string)
    requires '/' !in a && '/' !in b && a != b
    ensures Key(a) != Key(b)
  {
    KeyInverts(a);
    KeyInverts(b);
  }

  lemma KeyOfOne(p: string)
    requires '.' !in p
    ensures Key(p) == PREFIX + ("/" + p)
  {
    SplitWhole(p, '.');
    assert [p][1..] == [] && Slashed([]) + ("/" + p) == "/" + p;
  }

  lemma KeyOfTwo(p: string, q: string)
    requires '.' !in p && '.' !in q
    ensures Key(p + ['.'] + q) == PREFIX + (("/" + q) + ("/" + p))
  {
    SplitCons(p, q, '.');
    SplitWhole(q, '.');
    assert Split(p + ['.'] + q, '.') == [p] + [q] == [p, q];
    assert [p, q][1..] == [q] && [q][1..] == [] && Slashed([]) + ("/" + q) == "/" + q;
    assert Slashed([q]) == "/" + q;
    assert Slashed([p, q]) == Slashed([q]) + ("/" + p);
  }

  /** With a slash they do: for any p and q without dots, "p/q" and "q.p" have the same key. */
  lemma KeysCollide(p: string, q: string)
    requires '.' !in p && '.' !in q
    ensures Key(p + "/" + q) == Key(q + "." + p)
  {
    KeyOfOne(p + "/" + q);
    KeyOfTwo(q, p);
    assert q + "." + p == q + ['.'] + p;
    assert "/" + (p + "/" + q) == ("/" + p) + ("/" + q);
  }

  // ---- routing ----

  /** A URI that matches a path has the path as a prefix. */
  lemma MatchIsPrefix(uri: string, path: string)
    requires Matches(uri, path)
    ensures path <= uri
  {
  }

  /** Prefixes of one text are prefixes of each other. */
  lemma PrefixesClash(uri: string, p: string, q: string)
    requires p <= uri && q <= uri
    ensures Clash(p, q)
  {
  }

  /** Every request URI matches locations of at most one object per host. */
  lemma RoutesToOne(ds: set<DNS>, a: DNS, b: DNS, uri: string, p: string, q: string)
    requires PrefixFree(ds) && a in ds && b in ds && a.host == b.host
    requires HasPath(a, p) && HasPath(b, q) && Matches(uri, p) && Matches(uri, q)
    ensures a == b
  {
    MatchIsPrefix(uri, p);
    MatchIsPrefix(uri, q);
    PrefixesClash(uri, p, q);
    assert a != b ==> Apart(a, b);
  }

  /** The objects the configuration is generated from: an object that is being replaced is still among them. */
  function Routed(dns: map<string, DNS>, added: DNS): set<DNS> {
    dns.Values + {added}
  }

  function Created(dns: map<string, DNS>, added: DNS): map<string, DNS> {
    dns[added.name := added]
  }

  lemma ApartBack(a: DNS, b: DNS)
    requires Apart(a, b)
    ensures Apart(b, a)
  {
  }

  lemma AcceptedPrefixFree(dns: map<string, DNS>, added: DNS, resolves: string -> bool)
    requires PrefixFree(dns.Values) && Accepted(dns, added, resolves)
    ensures PrefixFree(Routed(dns, added)) && PrefixFree(Created(dns, added).Values)
  {
    hide Apart, Valid;
    forall a, b | a in Routed(dns, added) && b in Routed(dns, added) && a != b ensures Apart(a, b) {
      if a == added {
        var k :| k in dns && dns[k] == b;
        ApartBack(b, a);
      } else if b == added {
        var k :| k in dns && dns[k] == a;
      }
    }
    assert Created(dns, added).Values <= Routed(dns, added);
  }

  /** A run of requests from an empty controller; a refused request, or one whose configuration cannot be
      installed, changes nothing. */
  ghost predicate IsRun(states: seq<map<string, DNS>>, requests: seq<DNS>, resolves: seq<string -> bool>, installed: seq<bool>) {
    && |states| == |requests| + 1 == |resolves| + 1 == |installed| + 1 && states[0] == map[]
    && forall i | 0 <= i < |requests| ::
         states[i + 1] == if Accepted(states[i], requests[i], resolves[i]) && installed[i] then Created(states[i], requests[i])
                          else states[i]
  }

  /** Over any run, whatever services come and go, paths of different objects of one host never clash, and the
      configuration generated by any accepted request routes every URI to at most one of them. */
  lemma {:induction false} RoutingUnambiguous(states: seq<map<string, DNS>>, requests: seq<DNS>,
      resolves: seq<string -> bool>, installed: seq<bool>, i: nat)
    requires IsRun(states, requests, resolves, installed) && i < |states|
    ensures PrefixFree(states[i].Values)
    ensures i < |requests| && Accepted(states[i], requests[i], resolves[i]) ==>
      forall a, b, uri, p, q | a in Routed(states[i], requests[i]) && b in Routed(states[i], requests[i]) && a.host == b.host &&
          HasPath(a, p) && HasPath(b, q) && Matches(uri, p) && Matches(uri, q) :: a == b
    decreases i
  {
    hide Accepted, PrefixFree, Matches, HasPath;
    if i == 0 {
      NothingClashes(states[0]);
    } else {
      RoutingUnambiguous(states, requests, resolves, installed, i - 1);
      if Accepted(states[i - 1], requests[i - 1], resolves[i - 1]) {
        AcceptedPrefixFree(states[i - 1], requests[i - 1], resolves[i - 1]);
      }
    }
    if i < |requests| && Accepted(states[i], requests[i], resolves[i]) {
      AcceptedPrefixFree(states[i], requests[i], resolves[i]);
      var ds := Routed(states[i], requests[i]);
      forall a, b, uri, p, q | a in ds && b in ds && a.host == b.host &&
        HasPath(a, p) && HasPath(b, q) && Matches(uri, p) && Matches(uri, q) ensures a == b
      {
        RoutesToOne(ds, a, b, uri, p, q);
      }
    }
  }

  lemma NothingClashes(dns: map<string, DNS>)
    requires dns == map[]
    ensures PrefixFree(dns.Values)
  {
  }

  // ---- exactly which requests are refused ----

  /** Two paths differ at a position that both have. */
  predicate Parted(p: string, q: string) {
    exists x :: 0 <= x < |p| && x < |q| && p[x] != q[x]
  }

  /** One path continues the other exactly when they differ nowhere. */
  lemma PartedIff(p: string, q: string)
    ensures Clash(p, q) <==> !Parted(p, q)
    ensures Clash(p, q) <==> exists s :: p + s == q || q + s == p
  {
    if !Parted(p, q) {
      if |p| <= |q| {
        assert p == q[..|p|] && p + q[|p|..] == q;
      } else {
        assert q == p[..|q|] && q + p[|q|..] == p;
      }
    }
    if s: string :| p + s == q || q + s == p {
      assert p <= q || q <= p;
    }
  }

  /** The objects are on one host, and some path of the one continues some path of the other. */
  ghost predicate Conflict(a: DNS, b: DNS) {
    a.host == b.host && exists m, n, s :: m in a.paths && n in b.paths && (m.path + s == n.path || n.path + s == m.path)
  }

  lemma ConflictIff(a: DNS, b: DNS)
    ensures Apart(a, b) <==> !Conflict(a, b)
  {
    hide Clash, Parted;
    forall p, q ensures Clash(p, q) <==> exists s :: p + s == q || q + s == p {
      PartedIff(p, q);
    }
    forall m, n | m in a.paths && n in b.paths ensures HasPath(a, m.path) && HasPath(b, n.path) {
    }
    if a.host == b.host && !Apart(a, b) {
      var p, q :| HasPath(a, p) && HasPath(b, q) && Clash(p, q);
      var s :| p + s == q || q + s == p;
      var m :| m in a.paths && m.path == p;
      var n :| n in b.paths && n.path == q;
      assert m.path + s == n.path || n.path + s == m.path;
    }
  }

  ghost predicate AllResolve(dns: map<string, DNS>, added: DNS, resolves: string -> bool) {
    && (forall k, m | k in dns && m in dns[k].paths :: resolves(m.service))
    && (forall m | m in added.paths :: resolves(m.service))
  }

  /** A request is refused exactly when a service does not resolve or a path of the host and a new path continue one
      another. */
  lemma AcceptedIff(dns: map<string, DNS>, added: DNS, resolves: string -> bool)
    ensures Accepted(dns, added, resolves) <==>
      AllResolve(dns, added, resolves) && forall k | k in dns :: !Conflict(dns[k], added)
  {
    hide Apart, Conflict;
    forall k | k in dns ensures Apart(dns[k], added) <==> !Conflict(dns[k], added) {
      ConflictIff(dns[k], added);
    }
  }

  /** Paths that differ somewhere never stand in each other's way. */
  lemma PartedAccepted(dns: map<string, DNS>, added: DNS, resolves: string -> bool)
    requires AllResolve(dns, added, resolves)
    requires forall k, m, n | k in dns && dns[k].host == added.host && m in dns[k].paths && n in added.paths ::
      exists x :: 0 <= x < |m.path| && x < |n.path| && m.path[x] != n.path[x]
    ensures Accepted(dns, added, resolves)
  {
    hide AllResolve, Clash;
    AcceptedIff(dns, added, resolves);
    forall k | k in dns ensures !Conflict(dns[k], added) {
      ConflictIff(dns[k], added);
      forall m, n | m in dns[k].paths && n in added.paths && dns[k].host == added.host ensures !Clash(m.path, n.path) {
        PartedIff(m.path, n.path);
      }
    }
  }

  /** After an accepted request, a path and everything below it leads to its own object and to no other of the host. */
  lemma ServedByOwner(dns: map<string, DNS>, added: DNS, resolves: string -> bool, d: DNS, p: string, rest: string)
    requires PrefixFree(dns.Values) && Accepted(dns, added, resolves) && d in Routed(dns, added) && HasPath(d, p)
    ensures Matches(p, p) && Matches(p + "/" + rest, p)
    ensures forall b, q, uri | b in Routed(dns, added) && b.host == d.host && HasPath(b, q) &&
              (uri == p || uri == p + "/" + rest) && Matches(uri, q) :: b == d
  {
    hide Accepted, PrefixFree, HasPath;
    AcceptedPrefixFree(dns, added, resolves);
    assert p + "/" + rest == (p + "/") + rest;
    forall b, q, uri | b in Routed(dns, added) && b.host == d.host && HasPath(b, q) &&
      (uri == p || uri == p + "/" + rest) && Matches(uri, q) ensures b == d
    {
      assert Matches(uri, p);
      RoutesToOne(Routed(dns, added), b, d, uri, q, p);
    }
  }

  // ---- the code ----

  /** host2CoreDNSPath */
  method Host2CoreDNSPath(host: string) returns (key: string)
    ensures key == Key(host)
  {
    var builder := PREFIX;
    var domains := Split(host, '.');
    assert domains[|domains|..] == [];
    for i := |domains| downto 0
      invariant builder == PREFIX + Slashed(domains[i..])
    {
      assert domains[i..][1..] == domains[i + 1..];
      builder := builder + ("/" + domains[i]);
      assert PREFIX + Slashed(domains[i + 1..]) + ("/" + domains[i]) == PREFIX + (Slashed(domains[i + 1..]) + ("/" + domains[i]));
    }
    assert domains[0..] == domains;
    key := builder;
  }

  class DnsController {
    var dns: map<string, DNS>
    /** The keys written to etcd. */
    var published: set<string>

    constructor ()
      ensures dns == map[] && published == {}
    {
      dns, published := map[], {};
    }

    /** One existing object against the new one: false on an unresolved service or a clash. */
    method CheckAgainst(prior: DNS, added: DNS, resolves: string -> bool) returns (ok: bool)
      ensures ok <==> Valid(prior, resolves) && Apart(prior, added)
      ensures ok <==>
        && (forall m | m in prior.paths :: resolves(m.service))
        && (prior.host == added.host ==> forall m, n | m in prior.paths && n in added.paths :: Parted(m.path, n.path))
    {
      hide Parted;
      forall p, q ensures Clash(p, q) <==> !Parted(p, q) {
        PartedIff(p, q);
      }
      for i := 0 to |prior.paths|
        invariant forall j | 0 <= j < i :: resolves(prior.paths[j].service)
        invariant prior.host == added.host ==>
          forall j, l | 0 <= j < i && 0 <= l < |added.paths| :: !Clash(prior.paths[j].path, added.paths[l].path)
      {
        if !resolves(prior.paths[i].service) {
          assert prior.paths[i] in prior.paths;
          return false;
        }
        if prior.host == added.host {
          for l := 0 to |added.paths|
            invariant forall x | 0 <= x < l :: !Clash(prior.paths[i].path, added.paths[x].path)
          {
            var p, q := prior.paths[i].path, added.paths[l].path;
            if q <= p || p <= q {
              assert prior.paths[i] in prior.paths && added.paths[l] in added.paths;
              assert HasPath(prior, p) && HasPath(added, q);
              assert !Parted(prior.paths[i].path, added.paths[l].path);
              return false;
            }
          }
        }
      }
      PathsAt(prior);
      PathsAt(added);
      forall m, n | prior.host == added.host && m in prior.paths && n in added.paths ensures Parted(m.path, n.path) {
        assert HasPath(prior, m.path) && HasPath(added, n.path);
      }
      ok := true;
    }

    method ValidatePaths(added: DNS, resolves: string -> bool) returns (ok: bool)
      ensures ok <==> Valid(added, resolves)
    {
      for i := 0 to |added.paths|
        invariant forall j | 0 <= j < i :: resolves(added.paths[j].service)
      {
        if !resolves(added.paths[i].service) {
          assert added.paths[i] in added.paths;
          return false;
        }
      }
      ok := true;
    }

    /** The locations of one object, appended to those of its host. */
    method AddLocations(locations: map<string, seq<Location>>, d: DNS) returns (r: map<string, seq<Location>>)
      ensures forall h, n, p :: Configured(r, h, n, p) <==>
        Configured(locations, h, n, p) || (h == d.host && n == d.name && HasPath(d, p))
    {
      hide Configured, PathBefore;
      r := locations;
      NoPathBefore(d);
      for i := 0 to |d.paths|
        invariant forall h, n, p :: Configured(r, h, n, p) <==>
          Configured(locations, h, n, p) || (h == d.host && n == d.name && PathBefore(d, p, i))
      {
        var here := if d.host in r then r[d.host] else [];
        OneLocation(r, d.host, Location(d.name, d.paths[i].path));
        PathNext(d, i);
        assert Put(r, d.host, Location(d.name, d.paths[i].path)) == r[d.host := here + [Location(d.name, d.paths[i].path)]];
        r := r[d.host := here + [Location(d.name, d.paths[i].path)]];
      }
      AllPathsBefore(d);
    }

    /** `resolves` says which services have a valid address, `installed` whether nginx takes the configuration.
        The key of a new host is written before that and not taken back. The locations generated are exactly
        those of all old objects and the new one. */
    method CreateDNS(added: DNS, resolves: string -> bool, installed: bool)
      returns (ok: bool, locations: map<string, seq<Location>>)
      requires forall k | k in dns :: dns[k].name == k
      modifies this
      ensures ok <==> Accepted(old(dns), added, resolves) && installed
      ensures ok <==> AllResolve(old(dns), added, resolves) && (forall k | k in old(dns) :: !Conflict(old(dns)[k], added)) && installed
      ensures dns == (if ok then Created(old(dns), added) else old(dns))
      ensures ok ==> dns == old(dns)[added.name := added]
      ensures published == old(published) +
        if Accepted(old(dns), added, resolves) && !HostKnown(old(dns), added.host) then {Key(added.host)} else {}
      ensures ok ==> forall h, n, p :: Configured(locations, h, n, p) <==>
        || (exists k | k in old(dns) :: old(dns)[k].host == h && old(dns)[k].name == n && HasPath(old(dns)[k], p))
        || (added.host == h && added.name == n && HasPath(added, p))
    {
      hide Apart, Valid, Key, Configured, HasPath, AllResolve, Conflict;
      AcceptedIff(dns, added, resolves);
      ok, locations := false, map[];
      NoLocations();
      var isNewHost := true;
      var left := dns.Keys;
      while left != {}
        invariant left <= dns.Keys && !ok && dns == old(dns) && published == old(published)
        invariant forall k | k in dns && k !in left :: Valid(dns[k], resolves) && Apart(dns[k], added)
        invariant isNewHost <==> forall k | k in dns && k !in left :: !(dns[k].host == added.host && dns[k].paths != [])
        invariant forall h, n, p :: Configured(locations, h, n, p) <==>
          exists k | k in dns && k !in left :: dns[k].host == h && dns[k].name == n && HasPath(dns[k], p)
      {
        var k :| k in left;
        var fine := CheckAgainst(dns[k], added, resolves);
        if !fine {
          return;
        }
        locations := AddLocations(locations, dns[k]);
        if dns[k].host == added.host && dns[k].paths != [] {
          isNewHost := false;
        }
        left := left - {k};
      }
      var valid := ValidatePaths(added, resolves);
      if !valid {
        return;
      }
      locations := AddLocations(locations, added);
      if isNewHost {
        var key := Host2CoreDNSPath(added.host);
        published := published + {key};
      }
      if !installed {
        return;
      }
      dns := dns[added.name := added];
      ok := true;
    }
  }

  predicate PathBefore(d: DNS, path: string, i: nat)
    requires i <= |d.paths|
  {
    exists j :: 0 <= j < i && d.paths[j].path == path
  }

  lemma NoPathBefore(d: DNS)
    ensures forall p :: !PathBefore(d, p, 0)
  {
  }

  lemma AllPathsBefore(d: DNS)
    ensures forall p :: HasPath(d, p) <==> PathBefore(d, p, |d.paths|)
  {
    PathsAt(d);
  }

  lemma PathNext(d: DNS, i: nat)
    requires i < |d.paths|
    ensures forall p :: PathBefore(d, p, i + 1) <==> PathBefore(d, p, i) || p == d.paths[i].path
  {
    assert d.paths[i].path == d.paths[i].path;
  }

  function Put(locations: map<string, seq<Location>>, host: string, l: Location): map<string, seq<Location>> {
    locations[host := (if host in locations then locations[host] else []) + [l]]
  }

  lemma OneLocation(locations: map<string, seq<Location>>, host: string, l: Location)
    ensures forall h, n, p :: Configured(Put(locations, host, l), h, n, p) <==>
      Configured(locations, h, n, p) || (h == host && n == l.dnsName && p == l.path)
  {
  }

  lemma PathsAt(d: DNS)
    ensures forall p :: HasPath(d, p) <==> exists j :: 0 <= j < |d.paths| && d.paths[j].path == p
  {
  }

  lemma NoLocations()
    ensures forall h, n, p :: !Configured(map[], h, n, p)
  {
  }
}
