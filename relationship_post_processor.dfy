/**
 * RelationshipPostProcessor (src/processors/relationship_post_processor.py):
 * once every document exists, links each DNS record to the proxy hosts
 * that serve its domain (ROUTES_TO / ROUTES_FROM), and each proxy host to
 * the services whose containers publish its backend address
 * (PROXIES / PROXIED_BY). The clock reading `datetime.now().isoformat()`
 * is the parameter `timestamp`; loading and saving rag_data.json are
 * replaced by the constructor's arguments and the `relationships` field.
 */
module RelationshipPostProcessing {
  import opened Text
  import opened Values
  import EntitySchema

  // -----------------------------------------------------------------------
  // Selecting and deduplicating documents

  /** `d.get('id')`. */
  function Id(d: Dict): Value {
    Field(d, "id")
  }

  /** The document kinds the two passes select. */
  datatype Kind = DnsRecord | ProxyHost | Container | Server

  /** `'server' in d.get('type', '')`, for the types on which `in` is defined. */
  predicate IsServer(d: Dict) {
    match GetOr(Obj(d), "type", Str(""))
    case Str(s) => Contains(s, "server")
    case List(xs) => Str("server") in xs
    case Obj(fs) => "server" in Keys(fs)
    case _ => false
  }

  /** The selection test of each comprehension over `self.documents`. */
  predicate IsKind(d: Dict, k: Kind) {
    match k
    case DnsRecord => Field(d, "type") == Str("dns_record")
    case ProxyHost => Field(d, "type") == Str("proxy_host")
    case Container => Field(d, "type") == Str("container")
    case Server => IsServer(d)
  }

  /** `[d for d in self.documents if <test>]`. */
  function Select(docs: seq<Dict>, k: Kind): (r: seq<Dict>)
    ensures |r| <= |docs|
    ensures forall d :: d in r <==> d in docs && IsKind(d, k)
  {
    if docs == [] then []
    else if IsKind(docs[0], k) then [docs[0]] + Select(docs[1..], k)
    else Select(docs[1..], k)
  }

  /** Selection keeps document order: it distributes over concatenation. */
  lemma {:induction false} SelectAppend(a: seq<Dict>, b: seq<Dict>, k: Kind)
    ensures Select(a + b, k) == Select(a, k) + Select(b, k)
  {
    if a == [] {
      assert a + b == b;
    } else {
      assert (a + b)[0] == a[0] && (a + b)[1..] == a[1..] + b;
      SelectAppend(a[1..], b, k);
    }
  }

  /** A single document is kept iff it is of the kind. */
  lemma SelectOne(d: Dict, k: Kind)
    ensures Select([d], k) == if IsKind(d, k) then [d] else []
  {
    assert [d][1..] == [];
  }

  /** Some document of `ds` has id `id`. */
  predicate HasId(ds: seq<Dict>, id: Value) {
    exists k :: 0 <= k < |ds| && Id(ds[k]) == id
  }

  lemma HasIdSnoc(ds: seq<Dict>, d: Dict, id: Value)
    ensures HasId(ds + [d], id) <==> HasId(ds, id) || Id(d) == id
  {
    if HasId(ds + [d], id) && Id(d) != id {
      var k :| 0 <= k < |ds| + 1 && Id((ds + [d])[k]) == id;
      assert k < |ds| && ds[k] == (ds + [d])[k];
    }
    if HasId(ds, id) {
      var k :| 0 <= k < |ds| && Id(ds[k]) == id;
      assert (ds + [d])[k] == ds[k];
    }
    assert (ds + [d])[|ds|] == d;
  }

  /** The documents in order, each dropped when an earlier one has the same id. */
  function FirstById(ds: seq<Dict>): seq<Dict>
    decreases |ds|
  {
    if ds == [] then []
    else
      var init := ds[..|ds| - 1];
      if HasId(init, Id(ds[|ds| - 1])) then FirstById(init) else FirstById(init) + [ds[|ds| - 1]]
  }

  /** No document of `ds` before position `i` shares the id of `ds[i]`. */
  predicate FirstWithId(ds: seq<Dict>, i: int)
    requires 0 <= i < |ds|
  {
    !HasId(ds[..i], Id(ds[i]))
  }

  /**
   * Deduplication keeps exactly the first document with each id: the ids
   * that remain are distinct, every id of the input remains, and every
   * document kept is the first one carrying its id.
   */
  lemma {:induction false} FirstByIdKeepsFirst(ds: seq<Dict>)
    ensures forall i, j :: 0 <= i < j < |FirstById(ds)| ==> Id(FirstById(ds)[i]) != Id(FirstById(ds)[j])
    ensures forall id :: HasId(FirstById(ds), id) <==> HasId(ds, id)
    ensures forall i :: 0 <= i < |ds| && FirstWithId(ds, i) ==> ds[i] in FirstById(ds)
    ensures forall d :: d in FirstById(ds) ==> exists i :: 0 <= i < |ds| && ds[i] == d && FirstWithId(ds, i)
  {
    if ds != [] {
      var n := |ds| - 1;
      var init, last := ds[..n], ds[n];
      assert ds == init + [last];
      FirstByIdKeepsFirst(init);
      var r0 := FirstById(init);
      forall id ensures HasId(ds, id) <==> HasId(init, id) || Id(last) == id {
        HasIdSnoc(init, last, id);
      }
      if !HasId(init, Id(last)) {
        forall id ensures HasId(r0 + [last], id) <==> HasId(r0, id) || Id(last) == id {
          HasIdSnoc(r0, last, id);
        }
        forall i, j | 0 <= i < j < |r0| + 1 ensures Id((r0 + [last])[i]) != Id((r0 + [last])[j]) {
          if j == |r0| {
            assert (r0 + [last])[i] == r0[i];
            assert HasId(r0, Id(r0[i]));
          }
        }
      }
      forall i | 0 <= i < |ds| && FirstWithId(ds, i) ensures ds[i] in FirstById(ds) {
        if i < n {
          assert ds[..i] == init[..i] && ds[i] == init[i];
          assert FirstWithId(init, i);
        } else {
          assert ds[..i] == init;
        }
      }
      forall d | d in FirstById(ds) ensures exists i :: 0 <= i < |ds| && ds[i] == d && FirstWithId(ds, i) {
        if d in r0 {
          var i :| 0 <= i < |init| && init[i] == d && FirstWithId(init, i);
          assert ds[..i] == init[..i] && ds[i] == init[i];
          assert FirstWithId(ds, i);
        } else {
          assert d == last && ds[..n] == init;
          assert FirstWithId(ds, n);
        }
      }
    }
  }

  /** The comprehension with a `seen` set that keeps the first document per id. */
  method DedupById(ds: seq<Dict>) returns (r: seq<Dict>)
    ensures r == FirstById(ds)
  {
    var seen: set<Value> := {};
    r := [];
    for i := 0 to |ds|
      invariant r == FirstById(ds[..i])
      invariant forall id :: id in seen <==> HasId(ds[..i], id)
    {
      var id := Id(ds[i]);
      assert ds[..i + 1] == ds[..i] + [ds[i]];
      PrefixStep(ds, i);
      forall v ensures HasId(ds[..i + 1], v) <==> HasId(ds[..i], v) || id == v {
        HasIdSnoc(ds[..i], ds[i], v);
      }
      if id !in seen {
        seen := seen + {id};
        r := r + [ds[i]];
      }
    }
    WholePrefix(ds);
  }

  /** Documents with distinct ids are distinct documents. */
  lemma DistinctIds(ds: seq<Dict>)
    requires forall i, j :: 0 <= i < j < |ds| ==> Id(ds[i]) != Id(ds[j])
    ensures NoDuplicates(ds)
  {
  }

  /** A document's metadata dict: `d.get('metadata', {})`. */
  function Meta(d: Dict): Value {
    GetObj(Obj(d), "metadata")
  }

  /** Each element of `bs` paired with `a`. */
  function Pairs<A, B>(a: A, bs: seq<B>): (r: seq<(A, B)>)
    ensures |r| == |bs| && forall k :: 0 <= k < |bs| ==> r[k] == (a, bs[k])
  {
    seq(|bs|, k requires 0 <= k < |bs| => (a, bs[k]))
  }

  /** Pairing one more element of `bs` adds one pair at the end. */
  lemma PairsPrefix<A, B>(a: A, bs: seq<B>, k: nat)
    requires k < |bs|
    ensures Pairs(a, bs[..k + 1]) == Pairs(a, bs[..k]) + [(a, bs[k])]
  {
  }

  lemma PairsSnoc<A, B>(a: A, bs: seq<B>, b: B)
    ensures Pairs(a, bs + [b]) == Pairs(a, bs) + [(a, b)]
  {
  }

  /** A relationship record as appended to `relationships`. */
  datatype Link = Link(id: string, relType: string, sourceId: Value, sourceType: string,
                       targetId: Value, targetType: string, metadata: Dict)

  /** The record as the JSON dict written out. */
  function ToDict(l: Link): Dict {
    [ ("id", Str(l.id)), ("type", Str(l.relType)),
      ("source_id", l.sourceId), ("source_type", Str(l.sourceType)),
      ("target_id", l.targetId), ("target_type", Str(l.targetType)),
      ("metadata", Obj(l.metadata)) ]
  }

  function Dicts(ls: seq<Link>): (r: seq<Dict>)
    ensures |r| == |ls| && forall k :: 0 <= k < |ls| ==> r[k] == ToDict(ls[k])
  {
    seq(|ls|, k requires 0 <= k < |ls| => ToDict(ls[k]))
  }

  /** `b` is the reverse of `a`: endpoints swapped, same metadata. */
  predicate Mirrors(a: Link, b: Link) {
    && b.sourceId == a.targetId && b.sourceType == a.targetType
    && b.targetId == a.sourceId && b.targetType == a.sourceType
    && b.metadata == a.metadata
  }

  // -----------------------------------------------------------------------
  // DNS record → proxy host

  /** `dns.get('metadata', {}).get('domain')`. */
  function Domain(d: Dict): Value {
    GetOr(Meta(d), "domain", Null)
  }

  /** `x in names` for a list, a string or a dict of names. */
  predicate In(x: Value, names: Value) {
    match names
    case List(xs) => EntitySchema.InEnum(x, xs)
    case Str(s) => x.Str? && Contains(s, x.s)
    case Obj(fs) => x.Str? && x.s in Keys(fs)
    case _ => false
  }

  /** The match test: the proxy's primary domain, or one of its `domain_names`. */
  predicate ServesDomain(proxy: Dict, domain: Value) {
    || EntitySchema.PyEq(domain, GetOr(Meta(proxy), "domain", Null))
    || In(domain, GetOr(Meta(proxy), "domain_names", List([])))
  }

  /** `matching_proxies`: the proxies serving `domain`, in order. */
  function MatchingProxies(domain: Value, proxies: seq<Dict>): (r: seq<Dict>)
    ensures |r| <= |proxies|
    ensures forall p :: p in r <==> p in proxies && ServesDomain(p, domain)
    decreases |proxies|
  {
    if proxies == [] then []
    else
      var init, last := proxies[..|proxies| - 1], proxies[|proxies| - 1];
      assert proxies == init + [last];
      MatchingProxies(domain, init) + (if ServesDomain(last, domain) then [last] else [])
  }

  /** The (DNS record, proxy host) matches, record by record, skipping records without a domain. */
  function DnsMatches(dns: seq<Dict>, proxies: seq<Dict>): seq<(Dict, Dict)>
    decreases |dns|
  {
    if dns == [] then []
    else
      var d := dns[|dns| - 1];
      DnsMatches(dns[..|dns| - 1], proxies)
        + (if Truthy(Domain(d)) then Pairs(d, MatchingProxies(Domain(d), proxies)) else [])
  }

  /** The records with a domain and at least one matching proxy: `dns_proxy_matched`. */
  function DnsMatched(dns: seq<Dict>, proxies: seq<Dict>): nat
    decreases |dns|
  {
    if dns == [] then 0
    else
      var d := dns[|dns| - 1];
      DnsMatched(dns[..|dns| - 1], proxies)
        + (if Truthy(Domain(d)) && MatchingProxies(Domain(d), proxies) != [] then 1 else 0)
  }

  /** The records with a domain and no matching proxy: `dns_proxy_unmatched`. */
  function DnsUnmatched(dns: seq<Dict>, proxies: seq<Dict>): nat
    decreases |dns|
  {
    if dns == [] then 0
    else
      var d := dns[|dns| - 1];
      DnsUnmatched(dns[..|dns| - 1], proxies)
        + (if Truthy(Domain(d)) && MatchingProxies(Domain(d), proxies) == [] then 1 else 0)
  }

  /** The records that carry a domain. */
  function WithDomain(dns: seq<Dict>): nat
    decreases |dns|
  {
    if dns == [] then 0
    else WithDomain(dns[..|dns| - 1]) + (if Truthy(Domain(dns[|dns| - 1])) then 1 else 0)
  }

  /**
   * A match is exactly a record with a domain and a proxy serving that
   * domain; so a record without a domain takes part in no match.
   */
  lemma {:induction false} DnsMatchesIff(dns: seq<Dict>, proxies: seq<Dict>, d: Dict, p: Dict)
    ensures (d, p) in DnsMatches(dns, proxies)
            <==> d in dns && Truthy(Domain(d)) && p in proxies && ServesDomain(p, Domain(d))
    decreases |dns|
  {
    if dns != [] {
      var n := |dns| - 1;
      var init, last := dns[..n], dns[n];
      assert dns == init + [last];
      DnsMatchesIff(init, proxies, d, p);
      if Truthy(Domain(last)) {
        var ms := MatchingProxies(Domain(last), proxies);
        if (d, p) in Pairs(last, ms) {
          var k :| 0 <= k < |ms| && Pairs(last, ms)[k] == (d, p);
        }
        if d == last && p in proxies && ServesDomain(p, Domain(d)) {
          var k :| 0 <= k < |ms| && ms[k] == p;
          assert Pairs(last, ms)[k] == (d, p);
        }
      }
    }
  }

  /** Every record with a domain is counted once, as matched or as unmatched; the others not at all. */
  lemma {:induction false} DnsCountsCoverDomains(dns: seq<Dict>, proxies: seq<Dict>)
    ensures DnsMatched(dns, proxies) + DnsUnmatched(dns, proxies) == WithDomain(dns)
    decreases |dns|
  {
    if dns != [] {
      DnsCountsCoverDomains(dns[..|dns| - 1], proxies);
    }
  }

  /** The metadata of both relationships of a DNS match. */
  function RouteMeta(domain: Value, timestamp: string): Dict {
    [("matching_method", Str("domain")), ("matched_domain", domain), ("created_at", Str(timestamp))]
  }

  /** The DNS record ROUTES_TO the proxy host. */
  function RoutesTo(dns: Dict, proxy: Dict, timestamp: string): Link {
    Link(FString(Id(dns)) + "_routes_to_" + FString(Id(proxy)), "ROUTES_TO",
         Id(dns), "dns_record", Id(proxy), "proxy_host", RouteMeta(Domain(dns), timestamp))
  }

  /** The proxy host ROUTES_FROM the DNS record. */
  function RoutesFrom(dns: Dict, proxy: Dict, timestamp: string): Link {
    Link(FString(Id(proxy)) + "_routes_from_" + FString(Id(dns)), "ROUTES_FROM",
         Id(proxy), "proxy_host", Id(dns), "dns_record", RouteMeta(Domain(dns), timestamp))
  }

  /** The relationships of a list of matches, a ROUTES_TO and then a ROUTES_FROM for each. */
  function Routes(ms: seq<(Dict, Dict)>, timestamp: string): (r: seq<Link>)
    ensures |r| == 2 * |ms|
    decreases |ms|
  {
    if ms == [] then []
    else
      var last := ms[|ms| - 1];
      Routes(ms[..|ms| - 1], timestamp) + [RoutesTo(last.0, last.1, timestamp), RoutesFrom(last.0, last.1, timestamp)]
  }

  /**
   * Each match contributes two relationships in a row that mirror each
   * other: the record ROUTES_TO the proxy, then the proxy ROUTES_FROM the
   * record, with the same metadata.
   */
  lemma {:induction false} RoutesPaired(ms: seq<(Dict, Dict)>, timestamp: string, m: nat)
    requires m < |ms|
    ensures var r := Routes(ms, timestamp);
            && r[2 * m] == RoutesTo(ms[m].0, ms[m].1, timestamp)
            && r[2 * m + 1] == RoutesFrom(ms[m].0, ms[m].1, timestamp)
            && Mirrors(r[2 * m], r[2 * m + 1])
    decreases |ms|
  {
    if m < |ms| - 1 {
      RoutesPaired(ms[..|ms| - 1], timestamp, m);
    }
  }

  // -----------------------------------------------------------------------
  // Proxy host → service

  /** `proxy.get('metadata', {}).get('backend_host')`. */
  function BackendHost(p: Dict): Value {
    GetOr(Meta(p), "backend_host", Null)
  }

  /** `proxy.get('metadata', {}).get('backend_port')`. */
  function BackendPort(p: Dict): Value {
    GetOr(Meta(p), "backend_port", Null)
  }

  /** `proxy.get('metadata', {}).get('backend_protocol', 'http')`. */
  function BackendProtocol(p: Dict): Value {
    GetOr(Meta(p), "backend_protocol", Str("http"))
  }

  /** Backends on the proxy's own host. */
  const LocalHosts: seq<Value> := [Str("localhost"), Str("127.0.0.1"), Str("::1")]

  /** A proxy without a backend host or port, or with a local backend, is passed over. */
  predicate Skipped(p: Dict) {
    !Truthy(BackendHost(p)) || !Truthy(BackendPort(p)) || BackendHost(p) in LocalHosts
  }

  /** The name in a server id: the text after its first '_'. */
  function ServerName(server: Dict): Option<string> {
    match GetOr(Obj(server), "id", Str(""))
    case Str(s) => SplitOnce(s, '_').1
    case _ => None
  }

  /** `server_by_name`: the servers grouped by name, each group in document order. */
  function ServersByName(servers: seq<Dict>): map<string, seq<Dict>>
    decreases |servers|
  {
    if servers == [] then map[]
    else
      var m := ServersByName(servers[..|servers| - 1]);
      var s := servers[|servers| - 1];
      match ServerName(s)
      case Some(name) => m[name := (if name in m then m[name] else []) + [s]]
      case None => m
  }

  /** `server_by_name.get(name, [])`. */
  function NamedOr(m: map<string, seq<Dict>>, name: string): seq<Dict> {
    if name in m then m[name] else []
  }

  /** The servers called `name`, in order. */
  function ServersNamed(servers: seq<Dict>, name: string): (r: seq<Dict>)
    ensures forall s :: s in r <==> s in servers && ServerName(s) == Some(name)
    decreases |servers|
  {
    if servers == [] then []
    else
      var init, last := servers[..|servers| - 1], servers[|servers| - 1];
      assert servers == init + [last];
      ServersNamed(init, name) + (if ServerName(last) == Some(name) then [last] else [])
  }

  /** The name index holds, under each name, exactly the servers with that name, and no empty group. */
  lemma {:induction false} ServersByNameGroups(servers: seq<Dict>, name: string)
    ensures NamedOr(ServersByName(servers), name) == ServersNamed(servers, name)
    ensures name in ServersByName(servers) <==> ServersNamed(servers, name) != []
    decreases |servers|
  {
    if servers != [] {
      ServersByNameGroups(servers[..|servers| - 1], name);
    }
  }

  /** The loop that fills `server_by_name`. */
  method IndexServers(servers: seq<Dict>) returns (byName: map<string, seq<Dict>>)
    ensures byName == ServersByName(servers)
  {
    byName := map[];
    for i := 0 to |servers|
      invariant byName == ServersByName(servers[..i])
    {
      PrefixStep(servers, i);
      var server := servers[i];
      match ServerName(server)
      case Some(name) =>
        if name !in byName {
          byName := byName[name := []];
        }
        byName := byName[name := byName[name] + [server]];
      case None =>
    }
    WholePrefix(servers);
  }

  /** The server name in a container id "container_{server}_{name}": `container_id.split('_', 2)[1]`. */
  function ContainerServer(c: Dict): Option<string> {
    match Id(c)
    case Str(s) =>
      (match SplitOnce(s, '_').1
       case Some(rest) => Some(SplitOnce(rest, '_').0)
       case None => None)
    case _ => None
  }

  /** `container.get('details', {}).get('ports', [])`, when it is a list. */
  function Bindings(c: Dict): seq<Value> {
    match GetOr(GetObj(Obj(c), "details"), "ports", List([]))
    case List(xs) => xs
    case _ => []
  }

  /** `port_binding.get('host_port')`. */
  function HostPort(b: Value): Value {
    GetOr(b, "host_port", Null)
  }

  /** `server.get('metadata', {}).get('primary_ip')`. */
  function ServerIp(s: Dict): Value {
    GetOr(Meta(s), "primary_ip", Null)
  }

  /** `container.get('metadata', {}).get('part_of_service')`. */
  function PartOf(c: Dict): Value {
    GetOr(Meta(c), "part_of_service", Null)
  }

  /** Some server of the list has `host` as its primary IP. */
  predicate AtHost(servers: seq<Dict>, host: Value)
    decreases |servers|
  {
    servers != []
    && (AtHost(servers[..|servers| - 1], host) || EntitySchema.PyEq(ServerIp(servers[|servers| - 1]), host))
  }

  lemma {:induction false} AtHostIff(servers: seq<Dict>, host: Value)
    ensures AtHost(servers, host) <==> exists k :: 0 <= k < |servers| && EntitySchema.PyEq(ServerIp(servers[k]), host)
    decreases |servers|
  {
    if servers != [] {
      var n := |servers| - 1;
      AtHostIff(servers[..n], host);
      assert forall k :: 0 <= k < n ==> servers[..n][k] == servers[k];
    }
  }

  /** A port binding of container `c` leads to the backend `host`:`port` of a named server, and `c` belongs to a service. */
  predicate BindingMatches(c: Dict, b: Value, host: Value, port: Value, byName: map<string, seq<Dict>>) {
    && EntitySchema.PyEq(HostPort(b), port)
    && ContainerServer(c).Some?
    && AtHost(NamedOr(byName, ContainerServer(c).value), host)
    && Truthy(PartOf(c))
  }

  /** Some binding of `bs` leads container `c` to the backend. */
  predicate MatchesIn(c: Dict, bs: seq<Value>, host: Value, port: Value, byName: map<string, seq<Dict>>)
    decreases |bs|
  {
    bs != []
    && (MatchesIn(c, bs[..|bs| - 1], host, port, byName) || BindingMatches(c, bs[|bs| - 1], host, port, byName))
  }

  lemma {:induction false} MatchesInIff(c: Dict, bs: seq<Value>, host: Value, port: Value, byName: map<string, seq<Dict>>)
    ensures MatchesIn(c, bs, host, port, byName) <==> exists b :: b in bs && BindingMatches(c, b, host, port, byName)
    decreases |bs|
  {
    if bs != [] {
      var n := |bs| - 1;
      MatchesInIff(c, bs[..n], host, port, byName);
      assert bs == bs[..n] + [bs[n]];
    }
  }

  /** Some binding of container `c` leads it to the backend. */
  predicate ContainerMatches(c: Dict, host: Value, port: Value, byName: map<string, seq<Dict>>) {
    MatchesIn(c, Bindings(c), host, port, byName)
  }

  /** The services of the matching containers: `matched_services` for a backend. */
  function ServicesAt(containers: seq<Dict>, host: Value, port: Value, byName: map<string, seq<Dict>>): set<Value>
    decreases |containers|
  {
    if containers == [] then {}
    else
      var c := containers[|containers| - 1];
      ServicesAt(containers[..|containers| - 1], host, port, byName)
        + (if ContainerMatches(c, host, port, byName) then {PartOf(c)} else {})
  }

  lemma {:induction false} ServicesAtIff(containers: seq<Dict>, host: Value, port: Value, byName: map<string, seq<Dict>>, s: Value)
    ensures s in ServicesAt(containers, host, port, byName)
            <==> exists c :: c in containers && ContainerMatches(c, host, port, byName) && s == PartOf(c)
    decreases |containers|
  {
    if containers != [] {
      var n := |containers| - 1;
      var init, last := containers[..n], containers[n];
      ServicesAtIff(init, host, port, byName, s);
      assert containers == init + [last];
      if s in ServicesAt(containers, host, port, byName) {
        if s in ServicesAt(init, host, port, byName) {
          var c :| c in init && ContainerMatches(c, host, port, byName) && s == PartOf(c);
          assert c in containers;
        } else {
          assert last in containers;
        }
      }
      if exists c :: c in containers && ContainerMatches(c, host, port, byName) && s == PartOf(c) {
        var c :| c in containers && ContainerMatches(c, host, port, byName) && s == PartOf(c);
        if c != last {
          assert c in init;
        }
      }
    }
  }

  /** A proxy's matched services; none for a proxy that is passed over. */
  function MatchedServices(p: Dict, containers: seq<Dict>, byName: map<string, seq<Dict>>): set<Value> {
    if Skipped(p) then {} else ServicesAt(containers, BackendHost(p), BackendPort(p), byName)
  }

  /**
   * Container `c`, through its port binding `b`, runs on server `srv` behind
   * proxy `p`: the binding publishes the backend port, the server's name is
   * the container id's server part, the server's primary IP is the backend
   * host, and the container belongs to a service.
   */
  predicate Linked(p: Dict, c: Dict, b: Value, srv: Dict) {
    && EntitySchema.PyEq(HostPort(b), BackendPort(p))
    && ContainerServer(c).Some? && ServerName(srv) == ContainerServer(c)
    && EntitySchema.PyEq(ServerIp(srv), BackendHost(p))
    && Truthy(PartOf(c))
  }

  lemma MatchedServicesSound(p: Dict, containers: seq<Dict>, servers: seq<Dict>, s: Value)
    requires s in MatchedServices(p, containers, ServersByName(servers))
    ensures !Skipped(p)
    ensures exists c, b, srv :: c in containers && b in Bindings(c) && srv in servers && Linked(p, c, b, srv) && s == PartOf(c)
  {
    var byName := ServersByName(servers);
    var host, port := BackendHost(p), BackendPort(p);
    ServicesAtIff(containers, host, port, byName, s);
    var c :| c in containers && ContainerMatches(c, host, port, byName) && s == PartOf(c);
    MatchesInIff(c, Bindings(c), host, port, byName);
    var b :| b in Bindings(c) && BindingMatches(c, b, host, port, byName);
    var name := ContainerServer(c).value;
    ServersByNameGroups(servers, name);
    var named := ServersNamed(servers, name);
    AtHostIff(named, host);
    var q :| 0 <= q < |named| && EntitySchema.PyEq(ServerIp(named[q]), host);
    assert named[q] in named;
    assert Linked(p, c, b, named[q]);
  }

  lemma MatchedServicesComplete(p: Dict, containers: seq<Dict>, servers: seq<Dict>, c: Dict, b: Value, srv: Dict)
    requires !Skipped(p) && c in containers && b in Bindings(c) && srv in servers && Linked(p, c, b, srv)
    ensures PartOf(c) in MatchedServices(p, containers, ServersByName(servers))
  {
    var byName := ServersByName(servers);
    var host, port := BackendHost(p), BackendPort(p);
    var name := ContainerServer(c).value;
    ServersByNameGroups(servers, name);
    var named := ServersNamed(servers, name);
    assert srv in named;
    var q :| 0 <= q < |named| && named[q] == srv;
    AtHostIff(named, host);
    assert BindingMatches(c, b, host, port, byName);
    MatchesInIff(c, Bindings(c), host, port, byName);
    ServicesAtIff(containers, host, port, byName, PartOf(c));
  }

  /**
   * The match in terms of the documents themselves: a service is matched
   * to a proxy exactly when the proxy is not passed over and some
   * container of the service is linked to it through one of its port
   * bindings and one of the servers.
   */
  lemma MatchedServicesIff(p: Dict, containers: seq<Dict>, servers: seq<Dict>, s: Value)
    ensures s in MatchedServices(p, containers, ServersByName(servers))
            <==> (!Skipped(p) && exists c, b, srv :: c in containers && b in Bindings(c) && srv in servers
                                                   && Linked(p, c, b, srv) && s == PartOf(c))
  {
    if s in MatchedServices(p, containers, ServersByName(servers)) {
      MatchedServicesSound(p, containers, servers, s);
    }
    if !Skipped(p) && exists c, b, srv :: c in containers && b in Bindings(c) && srv in servers
                                          && Linked(p, c, b, srv) && s == PartOf(c) {
      var c, b, srv :| c in containers && b in Bindings(c) && srv in servers && Linked(p, c, b, srv) && s == PartOf(c);
      MatchedServicesComplete(p, containers, servers, c, b, srv);
    }
  }

  /** The innermost loop: the servers of the container's server name, checked against the backend host. */
  method MatchServers(c: Dict, matching: seq<Dict>, host: Value, matched0: set<Value>) returns (matched: set<Value>)
    ensures matched == matched0 + (if AtHost(matching, host) && Truthy(PartOf(c)) then {PartOf(c)} else {})
  {
    matched := matched0;
    for k := 0 to |matching|
      invariant matched == matched0 + (if AtHost(matching[..k], host) && Truthy(PartOf(c)) then {PartOf(c)} else {})
    {
      PrefixStep(matching, k);
      if EntitySchema.PyEq(ServerIp(matching[k]), host) {
        var service := PartOf(c);
        if Truthy(service) {
          matched := matched + {service};
        }
      }
    }
    WholePrefix(matching);
  }

  /** The loop over one container's port bindings. */
  method MatchBindings(c: Dict, host: Value, port: Value, byName: map<string, seq<Dict>>, matched0: set<Value>)
    returns (matched: set<Value>)
    ensures matched == matched0 + (if ContainerMatches(c, host, port, byName) then {PartOf(c)} else {})
  {
    matched := matched0;
    var ports := Bindings(c);
    for j := 0 to |ports|
      invariant matched == matched0 + (if MatchesIn(c, ports[..j], host, port, byName) then {PartOf(c)} else {})
    {
      PrefixStep(ports, j);
      if EntitySchema.PyEq(HostPort(ports[j]), port) && ContainerServer(c).Some? {
        matched := MatchServers(c, NamedOr(byName, ContainerServer(c).value), host, matched);
      }
    }
    WholePrefix(ports);
  }

  /** The nested container / port binding / server loops that fill `matched_services`. */
  method MatchServices(host: Value, port: Value, containers: seq<Dict>, byName: map<string, seq<Dict>>)
    returns (matched: set<Value>)
    ensures matched == ServicesAt(containers, host, port, byName)
  {
    matched := {};
    for i := 0 to |containers|
      invariant matched == ServicesAt(containers[..i], host, port, byName)
    {
      PrefixStep(containers, i);
      matched := MatchBindings(containers[i], host, port, byName, matched);
    }
    WholePrefix(containers);
  }

  /** `order` lists the members of `s`, each once: one iteration order of the Python set. */
  ghost predicate Enumerates(order: seq<Value>, s: set<Value>) {
    NoDuplicates(order) && forall x :: x in order <==> x in s
  }

  /** Each proxy's order enumerates its set of matched services. */
  ghost predicate EnumeratesEach(proxies: seq<Dict>, orders: seq<seq<Value>>, containers: seq<Dict>, byName: map<string, seq<Dict>>)
    requires |orders| == |proxies|
    decreases |proxies|
  {
    var n := |proxies| - 1;
    proxies == []
    || (EnumeratesEach(proxies[..n], orders[..n], containers, byName)
        && Enumerates(orders[n], MatchedServices(proxies[n], containers, byName)))
  }

  lemma {:induction false} EnumeratesEachAll(proxies: seq<Dict>, orders: seq<seq<Value>>, containers: seq<Dict>, byName: map<string, seq<Dict>>)
    requires |orders| == |proxies|
    requires EnumeratesEach(proxies, orders, containers, byName)
    ensures forall k :: 0 <= k < |orders| ==> Enumerates(orders[k], MatchedServices(proxies[k], containers, byName))
    decreases |proxies|
  {
    if proxies != [] {
      var n := |proxies| - 1;
      EnumeratesEachAll(proxies[..n], orders[..n], containers, byName);
      forall k | 0 <= k < n ensures Enumerates(orders[k], MatchedServices(proxies[k], containers, byName)) {
        assert orders[..n][k] == orders[k] && proxies[..n][k] == proxies[k];
      }
    }
  }

  /** The (proxy host, service) matches, proxy by proxy, each proxy's services in the order given for it. */
  function ServiceMatches(proxies: seq<Dict>, orders: seq<seq<Value>>): seq<(Dict, Value)>
    requires |orders| == |proxies|
    decreases |proxies|
  {
    if proxies == [] then []
    else
      var n := |proxies| - 1;
      ServiceMatches(proxies[..n], orders[..n]) + Pairs(proxies[n], orders[n])
  }

  /**
   * Whatever order each set is visited in, the matches are exactly the
   * (proxy, matched service) pairs, and each of them occurs once.
   */
  lemma {:induction false} ServiceMatchesIff(proxies: seq<Dict>, orders: seq<seq<Value>>, containers: seq<Dict>,
                                             byName: map<string, seq<Dict>>, p: Dict, s: Value)
    requires |orders| == |proxies|
    requires forall k :: 0 <= k < |proxies| ==> Enumerates(orders[k], MatchedServices(proxies[k], containers, byName))
    ensures (p, s) in ServiceMatches(proxies, orders) <==> p in proxies && s in MatchedServices(p, containers, byName)
    decreases |proxies|
  {
    if proxies != [] {
      var n := |proxies| - 1;
      assert proxies == proxies[..n] + [proxies[n]];
      ServiceMatchesIff(proxies[..n], orders[..n], containers, byName, p, s);
      var ps := Pairs(proxies[n], orders[n]);
      if (p, s) in ps {
        var k :| 0 <= k < |ps| && ps[k] == (p, s);
        assert orders[n][k] == s;
      }
      if p == proxies[n] && s in MatchedServices(p, containers, byName) {
        var k :| 0 <= k < |orders[n]| && orders[n][k] == s;
        assert ps[k] == (p, s);
      }
    }
  }

  /** With distinct proxies and each set visited once, no (proxy, service) pair repeats. */
  lemma {:induction false} ServiceMatchesDistinct(proxies: seq<Dict>, orders: seq<seq<Value>>)
    requires |orders| == |proxies|
    requires NoDuplicates(proxies)
    requires forall k :: 0 <= k < |orders| ==> NoDuplicates(orders[k])
    ensures NoDuplicates(ServiceMatches(proxies, orders))
    ensures forall m :: m in ServiceMatches(proxies, orders) ==> m.0 in proxies
    decreases |proxies|
  {
    if proxies != [] {
      var n := |proxies| - 1;
      var init := proxies[..n];
      ServiceMatchesDistinct(init, orders[..n]);
      var a, b := ServiceMatches(init, orders[..n]), Pairs(proxies[n], orders[n]);
      forall k | 0 <= k < n ensures init[k] != proxies[n] {
        assert init[k] == proxies[k];
      }
      assert proxies[n] !in init;
      forall i, j | 0 <= i < j < |a + b| ensures (a + b)[i] != (a + b)[j] {
        if i < |a| && j >= |a| {
          assert (a + b)[i] == a[i] && a[i] in a;
          assert (a + b)[j] == b[j - |a|];
        } else if i >= |a| {
          assert (a + b)[i] == b[i - |a|] && (a + b)[j] == b[j - |a|];
        } else {
          assert (a + b)[i] == a[i] && (a + b)[j] == a[j];
        }
      }
      forall m | m in a + b ensures m.0 in proxies {
        if m in a {
          assert m.0 in init;
        }
      }
    }
  }

  /** The metadata of both relationships of a proxy → service match. */
  function ProxyMeta(p: Dict, timestamp: string): Dict {
    [ ("matching_method", Str("ip_port")),
      ("backend_host", BackendHost(p)), ("backend_port", BackendPort(p)),
      ("backend_protocol", BackendProtocol(p)),
      ("created_at", Str(timestamp)) ]
  }

  /** The proxy host PROXIES the service. */
  function ProxiesRel(p: Dict, service: Value, timestamp: string): Link {
    Link(FString(Id(p)) + "_proxies_" + FString(service), "PROXIES",
         Id(p), "proxy_host", service, "service", ProxyMeta(p, timestamp))
  }

  /** The service is PROXIED_BY the proxy host. */
  function ProxiedByRel(p: Dict, service: Value, timestamp: string): Link {
    Link(FString(service) + "_proxied_by_" + FString(Id(p)), "PROXIED_BY",
         service, "service", Id(p), "proxy_host", ProxyMeta(p, timestamp))
  }

  /** The relationships of a list of matches, a PROXIES and then a PROXIED_BY for each. */
  function Proxied(ms: seq<(Dict, Value)>, timestamp: string): (r: seq<Link>)
    ensures |r| == 2 * |ms|
    decreases |ms|
  {
    if ms == [] then []
    else
      var last := ms[|ms| - 1];
      Proxied(ms[..|ms| - 1], timestamp) + [ProxiesRel(last.0, last.1, timestamp), ProxiedByRel(last.0, last.1, timestamp)]
  }

  /**
   * Each (proxy, service) match contributes two relationships in a row
   * that mirror each other: the proxy PROXIES the service, then the
   * service is PROXIED_BY the proxy, with the same metadata.
   */
  lemma {:induction false} ProxiedPaired(ms: seq<(Dict, Value)>, timestamp: string, m: nat)
    requires m < |ms|
    ensures var r := Proxied(ms, timestamp);
            && r[2 * m] == ProxiesRel(ms[m].0, ms[m].1, timestamp)
            && r[2 * m + 1] == ProxiedByRel(ms[m].0, ms[m].1, timestamp)
            && Mirrors(r[2 * m], r[2 * m + 1])
    decreases |ms|
  {
    if m < |ms| - 1 {
      ProxiedPaired(ms[..|ms| - 1], timestamp, m);
    }
  }

  /** The proxies that were matched to a service: `proxy_service_matched`. */
  function ServiceMatched(proxies: seq<Dict>, containers: seq<Dict>, byName: map<string, seq<Dict>>): nat
    decreases |proxies|
  {
    if proxies == [] then 0
    else
      var p := proxies[|proxies| - 1];
      ServiceMatched(proxies[..|proxies| - 1], containers, byName)
        + (if !Skipped(p) && MatchedServices(p, containers, byName) != {} then 1 else 0)
  }

  /** The proxies examined but matched to none: `proxy_service_unmatched`. */
  function ServiceUnmatched(proxies: seq<Dict>, containers: seq<Dict>, byName: map<string, seq<Dict>>): nat
    decreases |proxies|
  {
    if proxies == [] then 0
    else
      var p := proxies[|proxies| - 1];
      ServiceUnmatched(proxies[..|proxies| - 1], containers, byName)
        + (if !Skipped(p) && MatchedServices(p, containers, byName) == {} then 1 else 0)
  }

  /** The proxies that are not passed over. */
  function Examined(proxies: seq<Dict>): nat
    decreases |proxies|
  {
    if proxies == [] then 0
    else Examined(proxies[..|proxies| - 1]) + (if Skipped(proxies[|proxies| - 1]) then 0 else 1)
  }

  /** Every proxy that is not passed over is counted once, as matched or as unmatched; the others not at all. */
  lemma {:induction false} ServiceCountsCoverExamined(proxies: seq<Dict>, containers: seq<Dict>, byName: map<string, seq<Dict>>)
    ensures ServiceMatched(proxies, containers, byName) + ServiceUnmatched(proxies, containers, byName) == Examined(proxies)
    decreases |proxies|
  {
    if proxies != [] {
      ServiceCountsCoverExamined(proxies[..|proxies| - 1], containers, byName);
    }
  }

  // -----------------------------------------------------------------------
  // The processor

  class RelationshipPostProcessor {
    /** The documents of rag_data.json. */
    const documents: seq<Dict>
    /** The relationships of rag_data.json, extended by `Process`. */
    var relationships: seq<Dict>
    var dnsProxyMatched: nat
    var dnsProxyUnmatched: nat
    var proxyServiceMatched: nat
    var proxyServiceUnmatched: nat
    var relationshipsCreated: nat

    /** The processor after loading: the given documents and relationships, every counter zero. */
    constructor(documents: seq<Dict>, relationships: seq<Dict>)
      ensures this.documents == documents && this.relationships == relationships
      ensures dnsProxyMatched == 0 && dnsProxyUnmatched == 0
      ensures proxyServiceMatched == 0 && proxyServiceUnmatched == 0 && relationshipsCreated == 0
    {
      this.documents := documents;
      this.relationships := relationships;
      dnsProxyMatched, dnsProxyUnmatched := 0, 0;
      proxyServiceMatched, proxyServiceUnmatched, relationshipsCreated := 0, 0, 0;
    }

    /** The deduplicated DNS records. */
    ghost function DnsRecords(): seq<Dict>
      reads this
    {
      FirstById(Select(documents, DnsRecord))
    }

    /** The deduplicated proxy hosts. */
    ghost function ProxyHosts(): seq<Dict>
      reads this
    {
      FirstById(Select(documents, ProxyHost))
    }

    /** The deduplicated containers. */
    ghost function Containers(): seq<Dict>
      reads this
    {
      FirstById(Select(documents, Container))
    }

    /** `server_by_name` over the deduplicated servers. */
    ghost function ServerIndex(): map<string, seq<Dict>>
      reads this
    {
      ServersByName(FirstById(Select(documents, Server)))
    }

    /**
     * `_build_dns_proxy_relationships`: the ROUTES_TO / ROUTES_FROM pairs of
     * every DNS match, and the matched / unmatched counters advanced.
     */
    method BuildDnsProxyRelationships(timestamp: string) returns (rels: seq<Link>)
      modifies this
      ensures rels == Routes(DnsMatches(DnsRecords(), ProxyHosts()), timestamp)
      ensures dnsProxyMatched == old(dnsProxyMatched) + DnsMatched(DnsRecords(), ProxyHosts())
      ensures dnsProxyUnmatched == old(dnsProxyUnmatched) + DnsUnmatched(DnsRecords(), ProxyHosts())
      ensures relationships == old(relationships) && relationshipsCreated == old(relationshipsCreated)
      ensures proxyServiceMatched == old(proxyServiceMatched) && proxyServiceUnmatched == old(proxyServiceUnmatched)
    {
      var dns := DedupById(Select(documents, DnsRecord));
      var proxies := DedupById(Select(documents, ProxyHost));
      var matched, unmatched;
      rels, matched, unmatched := RouteAll(dns, proxies, timestamp);
      dnsProxyMatched := dnsProxyMatched + matched;
      dnsProxyUnmatched := dnsProxyUnmatched + unmatched;
    }

    /**
     * `_build_proxy_service_relationships`: the PROXIES / PROXIED_BY pairs
     * of every (proxy host, matched service) match, and the counters
     * advanced. `orders` is the order in which each proxy's set of matched
     * services was visited.
     */
    method BuildProxyServiceRelationships(timestamp: string) returns (rels: seq<Link>, orders: seq<seq<Value>>)
      modifies this
      ensures |orders| == |ProxyHosts()|
      ensures forall k :: 0 <= k < |orders| ==> Enumerates(orders[k], MatchedServices(ProxyHosts()[k], Containers(), ServerIndex()))
      ensures rels == Proxied(ServiceMatches(ProxyHosts(), orders), timestamp)
      ensures proxyServiceMatched == old(proxyServiceMatched) + ServiceMatched(ProxyHosts(), Containers(), ServerIndex())
      ensures proxyServiceUnmatched == old(proxyServiceUnmatched) + ServiceUnmatched(ProxyHosts(), Containers(), ServerIndex())
      ensures relationships == old(relationships) && relationshipsCreated == old(relationshipsCreated)
      ensures dnsProxyMatched == old(dnsProxyMatched) && dnsProxyUnmatched == old(dnsProxyUnmatched)
    {
      var proxies := DedupById(Select(documents, ProxyHost));
      var containers := DedupById(Select(documents, Container));
      var servers := DedupById(Select(documents, Server));
      var byName := IndexServers(servers);
      var matched, unmatched;
      rels, orders, matched, unmatched := ServeAll(proxies, containers, byName, timestamp);
      proxyServiceMatched := proxyServiceMatched + matched;
      proxyServiceUnmatched := proxyServiceUnmatched + unmatched;
    }

    /**
     * `process` after loading: both passes, their relationships appended
     * to the existing ones, and `relationships_created` set to their number.
     */
    method Process(dnsTimestamp: string, serviceTimestamp: string) returns (orders: seq<seq<Value>>)
      modifies this
      ensures |orders| == |ProxyHosts()|
      ensures forall k :: 0 <= k < |orders| ==> Enumerates(orders[k], MatchedServices(ProxyHosts()[k], Containers(), ServerIndex()))
      ensures var added := Routes(DnsMatches(DnsRecords(), ProxyHosts()), dnsTimestamp)
                           + Proxied(ServiceMatches(ProxyHosts(), orders), serviceTimestamp);
              relationships == old(relationships) + Dicts(added) && relationshipsCreated == |added|
      ensures dnsProxyMatched == old(dnsProxyMatched) + DnsMatched(DnsRecords(), ProxyHosts())
      ensures dnsProxyUnmatched == old(dnsProxyUnmatched) + DnsUnmatched(DnsRecords(), ProxyHosts())
      ensures proxyServiceMatched == old(proxyServiceMatched) + ServiceMatched(ProxyHosts(), Containers(), ServerIndex())
      ensures proxyServiceUnmatched == old(proxyServiceUnmatched) + ServiceUnmatched(ProxyHosts(), Containers(), ServerIndex())
    {
      var dnsRels := BuildDnsProxyRelationships(dnsTimestamp);
      var serviceRels;
      serviceRels, orders := BuildProxyServiceRelationships(serviceTimestamp);
      var added := dnsRels + serviceRels;
      relationships := relationships + Dicts(added);
      relationshipsCreated := |added|;
    }
  }

  /** The loop over the DNS records: their relationships and the matched / unmatched counts. */
  method RouteAll(dns: seq<Dict>, proxies: seq<Dict>, timestamp: string) returns (rels: seq<Link>, matched: nat, unmatched: nat)
    ensures rels == Routes(DnsMatches(dns, proxies), timestamp)
    ensures matched == DnsMatched(dns, proxies) && unmatched == DnsUnmatched(dns, proxies)
  {
    rels, matched, unmatched := [], 0, 0;
    for i := 0 to |dns|
      invariant rels == Routes(DnsMatches(dns[..i], proxies), timestamp)
      invariant matched == DnsMatched(dns[..i], proxies) && unmatched == DnsUnmatched(dns[..i], proxies)
    {
      PrefixStep(dns, i);
      var outcome;
      rels, outcome := RouteRecord(dns[i], proxies, timestamp, DnsMatches(dns[..i], proxies), rels);
      if outcome == Matched {
        matched := matched + 1;
      } else if outcome == Unmatched {
        unmatched := unmatched + 1;
      }
    }
    WholePrefix(dns);
  }

  /** The loop over the proxy hosts: their relationships, the order each set was visited in, and the counts. */
  method ServeAll(proxies: seq<Dict>, containers: seq<Dict>, byName: map<string, seq<Dict>>, timestamp: string)
    returns (rels: seq<Link>, orders: seq<seq<Value>>, matched: nat, unmatched: nat)
    ensures |orders| == |proxies|
    ensures forall k :: 0 <= k < |orders| ==> Enumerates(orders[k], MatchedServices(proxies[k], containers, byName))
    ensures rels == Proxied(ServiceMatches(proxies, orders), timestamp)
    ensures matched == ServiceMatched(proxies, containers, byName) && unmatched == ServiceUnmatched(proxies, containers, byName)
  {
    rels, orders, matched, unmatched := [], [], 0, 0;
    for i := 0 to |proxies|
      invariant |orders| == i
      invariant EnumeratesEach(proxies[..i], orders, containers, byName)
      invariant rels == Proxied(ServiceMatches(proxies[..i], orders), timestamp)
      invariant matched == ServiceMatched(proxies[..i], containers, byName)
      invariant unmatched == ServiceUnmatched(proxies[..i], containers, byName)
    {
      PrefixStep(proxies, i);
      var order, outcome;
      rels, order, outcome := ServeProxy(proxies[i], containers, byName, timestamp, ServiceMatches(proxies[..i], orders), rels);
      if outcome == Matched {
        matched := matched + 1;
      } else if outcome == Unmatched {
        unmatched := unmatched + 1;
      }
      SnocPrefix(orders, order);
      assert (orders + [order])[i] == order;
      assert ServiceMatches(proxies[..i + 1], orders + [order])
             == ServiceMatches(proxies[..i], orders) + Pairs(proxies[i], order);
      assert EnumeratesEach(proxies[..i + 1], orders + [order], containers, byName);
      orders := orders + [order];
    }
    WholePrefix(proxies);
    EnumeratesEachAll(proxies, orders, containers, byName);
  }

  /** How one DNS record or one proxy host fared: passed over, matched, or examined without a match. */
  datatype Outcome = Passed | Matched | Unmatched

  /** The body of the DNS loop for one record: its matches' relationships appended. */
  method RouteRecord(d: Dict, proxies: seq<Dict>, timestamp: string, ghost base: seq<(Dict, Dict)>, rels0: seq<Link>)
    returns (rels: seq<Link>, outcome: Outcome)
    requires rels0 == Routes(base, timestamp)
    ensures rels == Routes(base + (if Truthy(Domain(d)) then Pairs(d, MatchingProxies(Domain(d), proxies)) else []), timestamp)
    ensures outcome == (if !Truthy(Domain(d)) then Passed
                        else if MatchingProxies(Domain(d), proxies) != [] then Matched
                        else Unmatched)
  {
    var domain := Domain(d);
    rels := rels0;
    if !Truthy(domain) {
      AppendNil(base);
      return rels, Passed;
    }
    var matching := MatchDomain(domain, proxies);
    if matching != [] {
      rels := EmitRoutes(d, matching, timestamp, base, rels);
      outcome := Matched;
    } else {
      AppendNil(base);
      outcome := Unmatched;
    }
  }

  /** The body of the proxy loop for one proxy host: its services' relationships appended. */
  method ServeProxy(p: Dict, containers: seq<Dict>, byName: map<string, seq<Dict>>, timestamp: string,
                    ghost base: seq<(Dict, Value)>, rels0: seq<Link>)
    returns (rels: seq<Link>, order: seq<Value>, outcome: Outcome)
    requires rels0 == Proxied(base, timestamp)
    ensures Enumerates(order, MatchedServices(p, containers, byName))
    ensures rels == Proxied(base + Pairs(p, order), timestamp)
    ensures outcome == (if Skipped(p) then Passed
                        else if MatchedServices(p, containers, byName) != {} then Matched
                        else Unmatched)
  {
    rels, order := rels0, [];
    assert base + Pairs(p, order) == base;
    var host := BackendHost(p);
    var port := BackendPort(p);
    if !Truthy(host) || !Truthy(port) {
      return rels, order, Passed;
    }
    if host in LocalHosts {
      return rels, order, Passed;
    }
    var matched := MatchServices(host, port, containers, byName);
    if matched != {} {
      rels, order := EmitServices(p, matched, timestamp, base, rels);
      outcome := Matched;
    } else {
      outcome := Unmatched;
    }
  }

  /** The loop over the proxies for one DNS record with a domain. */
  method MatchDomain(domain: Value, proxies: seq<Dict>) returns (matching: seq<Dict>)
    ensures matching == MatchingProxies(domain, proxies)
  {
    matching := [];
    for j := 0 to |proxies|
      invariant matching == MatchingProxies(domain, proxies[..j])
    {
      PrefixStep(proxies, j);
      if ServesDomain(proxies[j], domain) {
        matching := matching + [proxies[j]];
      }
    }
    WholePrefix(proxies);
  }

  /** The loop that appends both relationships of each match of one DNS record. */
  method EmitRoutes(d: Dict, matching: seq<Dict>, timestamp: string, ghost base: seq<(Dict, Dict)>, rels0: seq<Link>)
    returns (rels: seq<Link>)
    requires rels0 == Routes(base, timestamp)
    ensures rels == Routes(base + Pairs(d, matching), timestamp)
  {
    rels := rels0;
    assert base + Pairs(d, matching[..0]) == base;
    for k := 0 to |matching|
      invariant rels == Routes(base + Pairs(d, matching[..k]), timestamp)
    {
      PairsPrefix(d, matching, k);
      var ms := base + Pairs(d, matching[..k + 1]);
      assert ms == (base + Pairs(d, matching[..k])) + [(d, matching[k])];
      SnocPrefix(base + Pairs(d, matching[..k]), (d, matching[k]));
      rels := rels + [RoutesTo(d, matching[k], timestamp), RoutesFrom(d, matching[k], timestamp)];
    }
    WholePrefix(matching);
  }

  /** One proxy's relationships, visiting its set of matched services in some order. */
  method EmitServices(p: Dict, matched: set<Value>, timestamp: string, ghost base: seq<(Dict, Value)>, rels0: seq<Link>)
    returns (rels: seq<Link>, order: seq<Value>)
    requires rels0 == Proxied(base, timestamp)
    ensures Enumerates(order, matched)
    ensures rels == Proxied(base + Pairs(p, order), timestamp)
  {
    rels, order := rels0, [];
    assert base + Pairs(p, order) == base;
    var remaining := matched;
    while remaining != {}
      invariant remaining <= matched
      invariant NoDuplicates(order)
      invariant forall x :: x in order ==> x in matched && x !in remaining
      invariant forall x :: x in matched ==> x in order || x in remaining
      invariant rels == Proxied(base + Pairs(p, order), timestamp)
      decreases |remaining|
    {
      var s :| s in remaining;
      PairsSnoc(p, order, s);
      var ms := base + Pairs(p, order + [s]);
      assert ms == (base + Pairs(p, order)) + [(p, s)];
      SnocPrefix(base + Pairs(p, order), (p, s));
      rels := rels + [ProxiesRel(p, s, timestamp), ProxiedByRel(p, s, timestamp)];
      order := order + [s];
      remaining := remaining - {s};
    }
  }

  /**
   * The proxy → service pairs added by a run never repeat: the proxies are
   * deduplicated by id, and each proxy's set of services is visited once.
   */
  lemma ServicePairsOnce(documents: seq<Dict>, orders: seq<seq<Value>>, containers: seq<Dict>, byName: map<string, seq<Dict>>)
    requires |orders| == |FirstById(Select(documents, ProxyHost))|
    requires forall k :: 0 <= k < |orders| ==> Enumerates(orders[k], MatchedServices(FirstById(Select(documents, ProxyHost))[k], containers, byName))
    ensures NoDuplicates(ServiceMatches(FirstById(Select(documents, ProxyHost)), orders))
  {
    var proxies := FirstById(Select(documents, ProxyHost));
    FirstByIdKeepsFirst(Select(documents, ProxyHost));
    DistinctIds(proxies);
    ServiceMatchesDistinct(proxies, orders);
  }
}
