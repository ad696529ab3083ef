/**
 * NPMConfigParser (src/processors/config_parsers/nginx_proxy.py): reads a
 * Nginx Proxy Manager host configuration file, extracts its server names,
 * upstream, listen ports and TLS settings, derives search terms, and builds
 * the proxy_host entity.
 *
 * Every regular expression of the parser is modelled by hand as a "match at
 * position i" function with Python's backtracking resolved for that one
 * pattern; `re.search` is the first position that matches and `re.findall`
 * the left-to-right non-overlapping matches. `\s` is Python's whitespace,
 * `\d` and `\w` are ASCII, and IGNORECASE folds ASCII letters.
 */
module NginxProxy {
  import opened Text

  // -----------------------------------------------------------------------
  // Pattern matching

  /** The lower-case literal `lit` occurs in `s` at `i`, ignoring ASCII case. */
  predicate AtIgnoringCase(s: string, i: nat, lit: string) {
    i + |lit| <= |s| && Lower(s[i..i + |lit|]) == lit
  }

  /**
   * `re.findall` for a pattern with one group: the group of every match,
   * left to right, the scan going on at the end of each match. `matchAt`
   * gives the group and the end of a match.
   */
  function FindAll(s: string, matchAt: (string, nat) -> Option<(string, nat)>, i: nat): (r: seq<string>)
    decreases |s| + 1 - i
  {
    if i > |s| then []
    else
      match matchAt(s, i)
      case Some((g, e)) => [g] + FindAll(s, matchAt, if e > i then e else i + 1)
      case None => FindAll(s, matchAt, i + 1)
  }

  /** The literal at `i` followed by `\s+`: the end of the whitespace run when it is not empty. */
  function SpacesAfter(s: string, i: nat, lit: string): (b: Option<nat>)
    ensures b.Some? ==> i + |lit| < b.value <= |s| && At(s, i, lit)
  {
    if !At(s, i, lit) then None
    else
      var b := SpaceEnd(s, i + |lit|);
      if b == i + |lit| then None else Some(b)
  }

  /**
   * `keyword\s+([^;]+);` at `i`. The group runs from the end of the
   * whitespace to the next ';'. When the ';' follows the whitespace at once,
   * `\s+` gives its last character back to the group, which needs two
   * whitespace characters.
   */
  function ValueAt(s: string, i: nat, keyword: string): (r: Option<string>)
    ensures r.Some? ==> r.value != [] && ';' !in r.value
  {
    match SpacesAfter(s, i, keyword)
    case None => None
    case Some(b) =>
      var j := b + IndexOf(s[b..], ';');
      if j == |s| then None
      else if j > b then Some(s[b..j])
      else if b - (i + |keyword|) >= 2 then Some(s[b - 1..b])
      else None
  }

  /** `set\s+\$name\s+` at `i`: the position after the second whitespace run. */
  function SetVariableAt(s: string, i: nat, name: string): (c: Option<nat>)
    ensures c.Some? ==> c.value <= |s|
  {
    match SpacesAfter(s, i, "set")
    case None => None
    case Some(b) => SpacesAfter(s, b, "$" + name)
  }

  /** `set\s+\$server\s+"([^"]+)"` at `i`. */
  function UpstreamServerAt(s: string, i: nat): (r: Option<string>)
    ensures r.Some? ==> r.value != [] && '"' !in r.value
  {
    match SetVariableAt(s, i, "server")
    case None => None
    case Some(c) =>
      if c < |s| && s[c] == '"' then
        var q := c + 1 + IndexOf(s[c + 1..], '"');
        if c + 1 < q < |s| then Some(s[c + 1..q]) else None
      else None
  }

  /** `set\s+\$port\s+(\d+)` at `i`. */
  function UpstreamPortAt(s: string, i: nat): (r: Option<string>)
    ensures r.Some? ==> r.value != [] && AllDigits(r.value)
  {
    match SetVariableAt(s, i, "port")
    case None => None
    case Some(c) =>
      var d := DigitEnd(s, c);
      if d > c then Some(s[c..d]) else None
  }

  /** End of the run of `\w` characters starting at `i`. */
  function WordEnd(s: string, i: nat): (k: nat)
    requires i <= |s|
    ensures i <= k <= |s| && forall j :: i <= j < k ==> IsWordChar(s[j])
    decreases |s| - i
  {
    if i == |s| || !IsWordChar(s[i]) then i else WordEnd(s, i + 1)
  }

  /** `set\s+\$forward_scheme\s+(\w+)` at `i`. */
  function ForwardSchemeAt(s: string, i: nat): (r: Option<string>)
    ensures r.Some? ==> r.value != []
  {
    match SetVariableAt(s, i, "forward_scheme")
    case None => None
    case Some(c) =>
      var d := WordEnd(s, c);
      if d > c then Some(s[c..d]) else None
  }

  /** `listen\s+(\d+)` at `i`, with the end of the match. */
  function ListenAt(s: string, i: nat): (r: Option<(string, nat)>)
    ensures r.Some? ==> r.value.0 != [] && AllDigits(r.value.0) && r.value.1 > i
  {
    match SpacesAfter(s, i, "listen")
    case None => None
    case Some(b) =>
      var d := DigitEnd(s, b);
      if d > b then Some((s[b..d], d)) else None
  }

  /** End of the run of characters other than whitespace and '{' starting at `i`. */
  function LocationEnd(s: string, i: nat): (k: nat)
    requires i <= |s|
    ensures i <= k <= |s|
    decreases |s| - i
  {
    if i == |s| || IsSpace(s[i]) || s[i] == '{' then i else LocationEnd(s, i + 1)
  }

  /** `location\s+([^\s{]+)` at `i`, with the end of the match. */
  function LocationAt(s: string, i: nat): (r: Option<(string, nat)>)
    ensures r.Some? ==> r.value.0 != [] && r.value.1 > i
  {
    match SpacesAfter(s, i, "location")
    case None => None
    case Some(b) =>
      var e := LocationEnd(s, b);
      if e > b then Some((s[b..e], e)) else None
  }

  /** `return\s+301\s+https://` at `i`. */
  function RedirectAt(s: string, i: nat): Option<()> {
    match SpacesAfter(s, i, "return")
    case None => None
    case Some(b) =>
      match SpacesAfter(s, b, "301")
      case None => None
      case Some(c) => if At(s, c, "https://") then Some(()) else None
  }

  /** `http2\s+on` at `i`. */
  function Http2At(s: string, i: nat): Option<()> {
    match SpacesAfter(s, i, "http2")
    case None => None
    case Some(b) => if At(s, b, "on") then Some(()) else None
  }

  /**
   * `.*?max-age=(\d+)` from `k`: the lazy `.*?` tries the shortest run
   * first and cannot cross a newline.
   */
  function MaxAgeFrom(s: string, k: nat): (r: Option<string>)
    ensures r.Some? ==> r.value != [] && AllDigits(r.value)
    decreases |s| + 1 - k
  {
    if k > |s| then None
    else if AtIgnoringCase(s, k, "max-age=") && DigitEnd(s, k + 8) > k + 8 then Some(s[k + 8..DigitEnd(s, k + 8)])
    else if k < |s| && s[k] != '\n' then MaxAgeFrom(s, k + 1)
    else None
  }

  /** `Strict-Transport-Security.*?max-age=(\d+)` with IGNORECASE at `i`. */
  function HstsAt(s: string, i: nat): (r: Option<string>)
    ensures r.Some? ==> r.value != [] && AllDigits(r.value)
  {
    if AtIgnoringCase(s, i, "strict-transport-security") then MaxAgeFrom(s, i + 25) else None
  }

  /** `ssl_certificate\s+/etc/letsencrypt/live/([^/]+)/` at `i`. */
  function CertificateDirAt(s: string, i: nat): (r: Option<string>)
    ensures r.Some? ==> r.value != [] && '/' !in r.value
  {
    match SpacesAfter(s, i, "ssl_certificate")
    case None => None
    case Some(b) =>
      if At(s, b, "/etc/letsencrypt/live/") then
        var c := b + 22;
        var q := c + IndexOf(s[c..], '/');
        if c < q < |s| then Some(s[c..q]) else None
      else None
  }

  // -----------------------------------------------------------------------
  // The header comment `#\s+-+\s*\n#\s+(.+?)\s*\n#\s+-+`

  /** End of the run of '-' starting at `i`. */
  function DashEnd(s: string, i: nat): (k: nat)
    requires i <= |s|
    ensures i <= k <= |s|
    decreases |s| - i
  {
    if i == |s| || s[i] != '-' then i else DashEnd(s, i + 1)
  }

  /**
   * `\s*\n#` at `g`: the whitespace run must end with the newline and be
   * followed by '#', since '#' is not whitespace and `\s*` can only give
   * characters back. The result is the position of that '#'.
   */
  function NewlineHashAt(s: string, g: nat): (h: Option<nat>)
    requires g <= |s|
    ensures h.Some? ==> g < h.value < |s| && s[h.value] == '#'
  {
    var h := SpaceEnd(s, g);
    if h > g && s[h - 1] == '\n' && h < |s| && s[h] == '#' then Some(h) else None
  }

  /** `\s*\n#\s+-+` at `g`. */
  predicate HeaderTailAt(s: string, g: nat)
    requires g <= |s|
  {
    match NewlineHashAt(s, g)
    case None => false
    case Some(h) => var k := SpaceEnd(s, h + 1); k > h + 1 && k < |s| && s[k] == '-'
  }

  /** The lazy group `(.+?)` from `start`: the first end `g` after which the tail matches, without crossing a newline. */
  function LazyGroupEnd(s: string, start: nat, g: nat): (r: Option<nat>)
    requires start < g
    ensures r.Some? ==> start < r.value <= |s|
    decreases |s| + 1 - g
  {
    if g > |s| || s[g - 1] == '\n' then None
    else if HeaderTailAt(s, g) then Some(g)
    else LazyGroupEnd(s, start, g + 1)
  }

  /**
   * The group for a `\s+` that may end anywhere from `start` down to `lo`:
   * the greedy `\s+` tries its longest run first and gives back one
   * character at a time.
   */
  function GroupFrom(s: string, lo: nat, start: nat): (r: Option<string>)
    requires lo <= start <= |s|
    decreases start
  {
    var end := if start < |s| then LazyGroupEnd(s, start, start + 1) else None;
    if end.Some? then Some(s[start..end.value])
    else if start > lo then GroupFrom(s, lo, start - 1)
    else None
  }

  /** The header comment at `i`, giving its middle line's group. */
  function HeaderAt(s: string, i: nat): Option<string> {
    if !(i < |s| && s[i] == '#') then None
    else
      var b := SpaceEnd(s, i + 1);
      if b == i + 1 || b == |s| || s[b] != '-' then None
      else
        match NewlineHashAt(s, DashEnd(s, b))
        case None => None
        case Some(e) =>
          var f := SpaceEnd(s, e + 1);
          if f == e + 1 then None else GroupFrom(s, e + 2, f)
  }

  // -----------------------------------------------------------------------
  // Listen ports

  predicate StrictlyIncreasing(xs: seq<nat>) {
    forall i, j :: 0 <= i < j < |xs| ==> xs[i] < xs[j]
  }

  function InsertSorted(xs: seq<nat>, x: nat): (r: seq<nat>)
    requires StrictlyIncreasing(xs)
    ensures StrictlyIncreasing(r) && forall y :: y in r <==> y in xs || y == x
  {
    if xs == [] then [x]
    else if x < xs[0] then [x] + xs
    else if x == xs[0] then xs
    else
      var tail := xs[1..];
      assert StrictlyIncreasing(tail) by {
        forall i, j | 0 <= i < j < |tail| ensures tail[i] < tail[j] {
          assert tail[i] == xs[i + 1] && tail[j] == xs[j + 1];
        }
      }
      var rest := InsertSorted(tail, x);
      assert forall y :: y in rest ==> xs[0] < y by {
        forall y | y in rest ensures xs[0] < y {
          if y in tail {
            var k :| 0 <= k < |tail| && tail[k] == y;
            assert xs[k + 1] == y;
          }
        }
      }
      var r := [xs[0]] + rest;
      assert StrictlyIncreasing(r) by {
        forall i, j | 0 <= i < j < |r| ensures r[i] < r[j] {
          assert r[j] == rest[j - 1] && r[j] in rest;
          if i > 0 { assert r[i] == rest[i - 1]; }
        }
      }
      assert forall y :: y in xs <==> y == xs[0] || y in tail;
      r
  }

  /** `sorted(set(xs))`. */
  function SortedSet(xs: seq<nat>): (r: seq<nat>)
    ensures StrictlyIncreasing(r) && forall y :: y in r <==> y in xs
  {
    if xs == [] then [] else InsertSorted(SortedSet(xs[..|xs| - 1]), xs[|xs| - 1])
  }

  /** Two increasing lists with the same elements are equal, so `sorted(set(xs))` is determined by the elements alone. */
  lemma {:induction false} IncreasingUnique(a: seq<nat>, b: seq<nat>)
    requires StrictlyIncreasing(a) && StrictlyIncreasing(b)
    requires forall y :: y in a <==> y in b
    ensures a == b
    decreases |a|
  {
    assert a != [] ==> a[0] in b;
    assert b != [] ==> b[0] in a;
    if a != [] && b != [] {
      var k :| 0 <= k < |b| && b[k] == a[0];
      assert b[0] <= a[0] by { if k > 0 { assert b[0] < b[k]; } }
      var m :| 0 <= m < |a| && a[m] == b[0];
      assert a[0] <= b[0] by { if m > 0 { assert a[0] < a[m]; } }
      forall y | y in a[1..] ensures y in b[1..] {
        var i :| 1 <= i < |a| && a[i] == y;
        assert y in a;
        assert y in b;
        var j :| 0 <= j < |b| && b[j] == y;
        assert j != 0 by { assert a[0] < a[i]; }
      }
      forall y | y in b[1..] ensures y in a[1..] {
        var i :| 1 <= i < |b| && b[i] == y;
        assert y in b;
        assert y in a;
        var j :| 0 <= j < |a| && a[j] == y;
        assert j != 0 by { assert b[0] < b[i]; }
      }
      IncreasingUnique(a[1..], b[1..]);
    }
  }

  function PortValues(ps: seq<string>): (r: seq<nat>)
    requires forall k :: 0 <= k < |ps| ==> AllDigits(ps[k])
    ensures |r| == |ps| && forall k :: 0 <= k < |ps| ==> r[k] == DigitsValue(ps[k])
  {
    seq(|ps|, k requires 0 <= k < |ps| => DigitsValue(ps[k]))
  }

  /** Every `listen` port text is a run of digits. */
  lemma {:induction false} ListenDigits(s: string, i: nat)
    ensures forall k :: 0 <= k < |FindAll(s, ListenAt, i)| ==> AllDigits(FindAll(s, ListenAt, i)[k])
    decreases |s| + 1 - i
  {
    if i <= |s| {
      match ListenAt(s, i)
      case Some((g, e)) => ListenDigits(s, if e > i then e else i + 1);
      case None => ListenDigits(s, i + 1);
    }
  }

  // -----------------------------------------------------------------------
  // The file name

  /** The last component of a path, `.` components and empty ones (from repeated or trailing '/') not counting. */
  function PathName(parts: seq<string>): string {
    if parts == [] then ""
    else if parts[|parts| - 1] == "" || parts[|parts| - 1] == "." then PathName(parts[..|parts| - 1])
    else parts[|parts| - 1]
  }

  /** `Path(file_path).stem`: the name without its last suffix, a leading or trailing dot not starting one. */
  function Stem(filePath: string): (r: string)
  {
    var name := PathName(Split(filePath, '/'));
    var i := LastIndexOf(name, '.');
    if 0 < i < |name| - 1 then name[..i] else name
  }

  // -----------------------------------------------------------------------
  // parse

  /** The parsed configuration, one field per key of the dict `parse` returns. */
  datatype ParsedConfig = ParsedConfig(
    serverName: Option<string>,
    serverNameAliases: seq<string>,
    upstream: Option<string>,
    upstreamIp: Option<string>,
    upstreamPort: Option<nat>,
    listenPorts: seq<nat>,
    sslEnabled: bool,
    sslCertificate: Option<string>,
    sslCertificateKey: Option<string>,
    forceSsl: bool,
    forwardScheme: Option<string>,
    http2Enabled: bool,
    locations: seq<string>,
    hstsEnabled: bool,
    hstsMaxAge: Option<nat>,
    blockExploits: bool,
    assetCaching: bool,
    ipv6: bool,
    npmId: Option<int>,
    certificatePathId: Option<string>,
    certificateId: Option<int>)

  /** The server names of the `server_name` directive: the first is the domain, the rest are aliases. */
  function ServerNames(content: string): (r: (Option<string>, seq<string>))
  {
    match Search(content, ServerNameAt, 0)
    case None => (None, [])
    case Some(g) =>
      var names := Words(Strip(g));
      (if names != [] then Some(names[0]) else None, if |names| > 1 then names[1..] else [])
  }

  /** The upstream from `set $server "ip"` and `set $port n`: all three fields, or none when either is missing. */
  function Upstream(content: string): (r: (Option<string>, Option<string>, Option<nat>))
    ensures r.0.Some? <==> r.1.Some? && r.2.Some?
    ensures r.1.Some? <==> r.0.Some?
    ensures r.0.Some? ==> exists p :: p != [] && AllDigits(p) && r.0.value == r.1.value + ":" + p && r.2.value == DigitsValue(p)
  {
    var server := Search(content, UpstreamServerAt, 0);
    var port := Search(content, UpstreamPortAt, 0);
    if server.Some? && port.Some? then
      (Some(server.value + ":" + port.value), Some(server.value), Some(DigitsValue(port.value)))
    else (None, None, None)
  }

  /** The domains of the header comment: its middle line, stripped and split at commas, each part stripped. */
  function HeaderDomains(content: string): Option<seq<string>> {
    match Search(content, HeaderAt, 0)
    case None => None
    case Some(line) =>
      var parts := Split(Strip(line), ',');
      Some(seq(|parts|, k requires 0 <= k < |parts| => Strip(parts[k])))
  }

  /** `int(cert_id_str.split('-')[1])` for a directory named "npm-...", else None. */
  function CertificateId(dir: string): Option<int> {
    if StartsWith(dir, "npm-") then
      var parts := Split(dir, '-');
      if |parts| > 1 then ParseInt(parts[1]) else None
    else None
  }

  /** The server name and aliases: those of `server_name`, unless it gave no name and a header comment names domains. */
  function Names(content: string): (r: (Option<string>, seq<string>))
  {
    var (name, aliases) := ServerNames(content);
    var header := HeaderDomains(content);
    if header.Some? && header.value != [] && (name.None? || name.value == "") then
      (Some(header.value[0]), if |header.value| > 1 then header.value[1..] else [])
    else (name, aliases)
  }

  /** The text of every `listen` port, in order of appearance. */
  function ListenTexts(content: string): (r: seq<string>)
    ensures forall k :: 0 <= k < |r| ==> AllDigits(r[k])
  {
    ListenDigits(content, 0);
    FindAll(content, ListenAt, 0)
  }

  /** `sorted(set(int(p) for p in listen_ports))`. */
  function ListenPorts(content: string): (r: seq<nat>)
    ensures StrictlyIncreasing(r)
    ensures forall n :: n in r <==> exists k :: 0 <= k < |ListenTexts(content)| && n == DigitsValue(ListenTexts(content)[k])
  {
    var ps := PortValues(ListenTexts(content));
    assert forall n :: n in ps <==> exists k :: 0 <= k < |ps| && ps[k] == n;
    SortedSet(ps)
  }

  /** `ssl` anywhere in the file, or a `listen 443`. */
  predicate SslEnabled(content: string) {
    Contains(content, "ssl") || "443" in ListenTexts(content)
  }

  function ServerNameAt(s: string, i: nat): Option<string> { ValueAt(s, i, "server_name") }
  function CertificateAt(s: string, i: nat): Option<string> { ValueAt(s, i, "ssl_certificate") }
  function CertificateKeyAt(s: string, i: nat): Option<string> { ValueAt(s, i, "ssl_certificate_key") }

  /** The stripped value of the first directive a match function finds. */
  function StrippedValue(content: string, at: (string, nat) -> Option<string>): Option<string> {
    match Search(content, at, 0)
    case Some(v) => Some(Strip(v))
    case None => None
  }

  /** `max-age` of the first HSTS header, if any. */
  function HstsMaxAge(content: string): Option<nat> {
    match Search(content, HstsAt, 0)
    case Some(v) => Some(DigitsValue(v))
    case None => None
  }

  /** The dict `parse` fills in, before the final check. */
  function Extract(content: string, filePath: string): ParsedConfig
  {
    var names := Names(content);
    var up := Upstream(content);
    var ssl := SslEnabled(content);
    var hsts := HstsMaxAge(content);
    var certDir := Search(content, CertificateDirAt, 0);
    ParsedConfig(
      names.0, names.1, up.0, up.1, up.2,
      ListenPorts(content),
      ssl,
      StrippedValue(content, CertificateAt),
      StrippedValue(content, CertificateKeyAt),
      ssl && Search(content, RedirectAt, 0).Some?,
      Search(content, ForwardSchemeAt, 0),
      Search(content, Http2At, 0).Some?,
      FindAll(content, LocationAt, 0),
      hsts.Some?,
      hsts,
      Contains(content, "conf.d/include/block-exploits.conf"),
      Contains(content, "conf.d/include/assets.conf"),
      Contains(content, "[::]"),
      ParseInt(Stem(filePath)),
      certDir,
      if certDir.Some? then CertificateId(certDir.value) else None)
  }

  /** A non-empty server name or an upstream: the information `parse` needs to return anything. */
  predicate Meaningful(p: ParsedConfig) {
    (p.serverName.Some? && p.serverName.value != "") || p.upstream.Some?
  }

  /** NPMConfigParser.parse */
  function Parse(content: string, filePath: string): (r: Option<ParsedConfig>)
    ensures r.Some? ==> Meaningful(r.value) && r.value == Extract(content, filePath)
    ensures r.None? ==> !Meaningful(Extract(content, filePath))
  {
    var p := Extract(content, filePath);
    if Meaningful(p) then Some(p) else None
  }

  /** An empty file yields nothing. */
  lemma ParseEmpty(filePath: string)
    ensures Parse("", filePath).None?
  {
    assert ServerNameAt("", 0).None?;
    assert UpstreamServerAt("", 0).None?;
    assert HeaderAt("", 0).None?;
  }

  /** `sorted(set(...))` is the only increasing list of the listen ports, so the order of `listen` lines does not matter. */
  lemma ListenPortsCanonical(content: string, xs: seq<nat>)
    requires StrictlyIncreasing(xs)
    requires forall n :: n in xs <==> exists k :: 0 <= k < |ListenTexts(content)| && n == DigitsValue(ListenTexts(content)[k])
    ensures xs == ListenPorts(content)
  {
    IncreasingUnique(xs, ListenPorts(content));
  }

  /** What the parsed dict promises about its fields. */
  lemma ParseSound(content: string, filePath: string)
    requires Parse(content, filePath).Some?
    ensures var p := Parse(content, filePath).value;
      && (p.forceSsl ==> p.sslEnabled)
      && StrictlyIncreasing(p.listenPorts)
      && (p.upstream.Some? <==> Search(content, UpstreamServerAt, 0).Some? && Search(content, UpstreamPortAt, 0).Some?)
      && (p.upstream.None? ==> p.upstreamIp.None? && p.upstreamPort.None?)
      && (p.upstream.Some? ==> exists z :: z != [] && AllDigits(z) && p.upstream.value == p.upstreamIp.value + ":" + z && p.upstreamPort.value == DigitsValue(z))
      && (p.serverName.None? || p.serverName.value != "" || p.upstream.Some?)
  {
  }

  /** With a `server_name` directive, its first token is the domain and the other tokens are the aliases. */
  lemma ServerNameFirstToken(content: string)
    requires Search(content, ServerNameAt, 0).Some?
    ensures var names := Words(Strip(Search(content, ServerNameAt, 0).value));
      && (names != [] ==> Names(content) == (Some(names[0]), names[1..]))
  {
    var names := Words(Strip(Search(content, ServerNameAt, 0).value));
    if names != [] {
      assert ServerNames(content) == (Some(names[0]), names[1..]);
      assert names[0] != "";
    }
  }

  // -----------------------------------------------------------------------
  // Dispatch and search terms

  /** NPMConfigParser.can_process */
  predicate CanProcess(serviceType: string, configType: string)
    ensures serviceType != "nginx-proxy-manager" ==> !CanProcess(serviceType, configType)
    ensures configType != "proxy" ==> !CanProcess(serviceType, configType)
  {
    serviceType == "nginx-proxy-manager" && configType == "proxy"
  }

  function Truthy(x: Option<string>): bool {
    x.Some? && x.value != ""
  }

  /** The address terms: the domain, the aliases, the upstream and its IP, each when present. */
  function AddressTerms(p: ParsedConfig): (r: seq<string>)
  {
    (if Truthy(p.serverName) then [p.serverName.value] else [])
    + p.serverNameAliases
    + (if Truthy(p.upstream) then [p.upstream.value] else [])
    + (if Truthy(p.upstreamIp) then [p.upstreamIp.value] else [])
  }

  /** The fixed terms the flags add, in order. */
  function FlagTerms(p: ParsedConfig): (r: seq<string>)
    ensures forall t :: t in r <==> (p.sslEnabled && (t == "ssl-enabled" || t == "https")) || (p.http2Enabled && t == "http2") || (p.forceSsl && t == "force-ssl")
  {
    (if p.sslEnabled then ["ssl-enabled", "https"] else [])
    + (if p.http2Enabled then ["http2"] else [])
    + (if p.forceSsl then ["force-ssl"] else [])
  }

  /** NPMConfigParser.extract_search_terms */
  function ExtractSearchTerms(p: ParsedConfig): (terms: seq<string>)
    ensures |terms| >= |AddressTerms(p)| && terms[..|AddressTerms(p)|] == AddressTerms(p)
    ensures forall t :: t in terms ==> t in AddressTerms(p) || t in ["ssl-enabled", "https", "http2", "force-ssl"]
    ensures p.sslEnabled ==> "ssl-enabled" in terms && "https" in terms
    ensures "ssl-enabled" in terms <==> p.sslEnabled || "ssl-enabled" in AddressTerms(p)
    ensures "https" in terms <==> p.sslEnabled || "https" in AddressTerms(p)
    ensures "http2" in terms <==> p.http2Enabled || "http2" in AddressTerms(p)
    ensures "force-ssl" in terms <==> p.forceSsl || "force-ssl" in AddressTerms(p)
  {
    var terms := AddressTerms(p) + FlagTerms(p);
    TermsWithFlags(p, FlagTerms(p), terms);
    terms
  }

  /** The address terms followed by the flag terms the configuration enables. */
  lemma TermsWithFlags(p: ParsedConfig, flags: seq<string>, terms: seq<string>)
    requires forall t :: t in flags <==> (p.sslEnabled && (t == "ssl-enabled" || t == "https")) || (p.http2Enabled && t == "http2") || (p.forceSsl && t == "force-ssl")
    requires terms == AddressTerms(p) + flags
    ensures |terms| >= |AddressTerms(p)| && terms[..|AddressTerms(p)|] == AddressTerms(p)
    ensures forall t :: t in terms ==> t in AddressTerms(p) || t in ["ssl-enabled", "https", "http2", "force-ssl"]
    ensures "ssl-enabled" in terms <==> p.sslEnabled || "ssl-enabled" in AddressTerms(p)
    ensures "https" in terms <==> p.sslEnabled || "https" in AddressTerms(p)
    ensures "http2" in terms <==> p.http2Enabled || "http2" in AddressTerms(p)
    ensures "force-ssl" in terms <==> p.forceSsl || "force-ssl" in AddressTerms(p)
  {
    assert forall t :: t in terms <==> t in AddressTerms(p) || t in flags;
  }

  // -----------------------------------------------------------------------
  // The proxy_host entity

  /** The SSL section of the entity's details, present only with SSL. */
  datatype SslDetails = SslDetails(
    certificateId: Option<int>,
    certificateName: Option<string>,
    provider: Option<string>,
    expires: Option<string>,
    certificatePath: Option<string>,
    keyPath: Option<string>)

  /** The proxy_host entity: id, title, the metadata tier and the frontend/backend/SSL details. */
  datatype ProxyHost = ProxyHost(
    id: string,
    title: string,
    domain: string,
    domainNames: seq<string>,
    backendHost: Option<string>,
    backendPort: Option<nat>,
    backendProtocol: string,
    sslEnabled: bool,
    forceSsl: bool,
    certificateId: Option<int>,
    npmId: Option<int>,
    lastUpdated: string,
    frontendScheme: string,
    listenPort: nat,
    hstsEnabled: bool,
    http2: bool,
    ipv6: bool,
    ssl: Option<SslDetails>,
    assetCaching: bool,
    blockExploits: bool)

  /** The domain as it appears in an entity id: lower case, '.' and '_' turned into '-'. */
  function DomainSlug(domain: string): (r: string)
    ensures |r| == |domain| && '.' !in r && '_' !in r
    ensures forall k :: 0 <= k < |r| ==> r[k] == (if domain[k] == '.' || domain[k] == '_' then '-' else LowerChar(domain[k]))
  {
    ReplaceChar(ReplaceChar(Lower(domain), '.', '-'), '_', '-')
  }

  /** The certificate name: the wildcard certificate for id 9, a numbered one otherwise, none without SSL or a (non-zero) id. */
  function CertificateName(sslEnabled: bool, certificateId: Option<int>): (r: Option<string>)
    ensures r.Some? <==> sslEnabled && certificateId.Some? && certificateId.value != 0
    ensures r == Some("*.maxseiner.casa") <==> sslEnabled && certificateId == Some(9)
  {
    if sslEnabled && certificateId.Some? && certificateId.value != 0 then
      if certificateId.value == 9 then Some("*.maxseiner.casa")
      else
        var name := "Certificate " + IntToString(certificateId.value);
        assert name[0] == 'C';
        Some(name)
    else None
  }

  /** The entity for a domain and a backend protocol; `now` is the timestamp of the build. */
  function Entity(p: ParsedConfig, domain: string, protocol: string, now: string): (e: ProxyHost)
    ensures e.domain == domain && e.backendProtocol == protocol
    ensures e.id == "proxy_" + DomainSlug(domain) && e.title == "Reverse Proxy - " + domain
    ensures e.domainNames == [domain] + p.serverNameAliases
    ensures (e.ssl.Some? <==> p.sslEnabled) && e.listenPort == (if p.sslEnabled then 443 else 80)
    ensures e.ssl.Some? && e.ssl.value.certificateName.Some? ==> e.ssl.value.provider == Some("letsencrypt")
  {
    var certName := CertificateName(p.sslEnabled, p.certificateId);
    ProxyHost(
      "proxy_" + DomainSlug(domain),
      "Reverse Proxy - " + domain,
      domain,
      [domain] + p.serverNameAliases,
      p.upstreamIp, p.upstreamPort, protocol,
      p.sslEnabled, p.forceSsl, p.certificateId, p.npmId, now,
      if p.sslEnabled then "https" else "http",
      if p.sslEnabled then 443 else 80,
      p.hstsEnabled, p.http2Enabled, p.ipv6,
      if p.sslEnabled then
        Some(SslDetails(
          p.certificateId, certName,
          if certName.Some? then Some("letsencrypt") else None,
          if certName == Some("*.maxseiner.casa") then Some("2025-11-21") else None,
          p.sslCertificate, p.sslCertificateKey))
      else None,
      p.assetCaching, p.blockExploits)
  }

  /**
   * NPMConfigParser.create_proxy_host_entity as written. The parsed dict
   * always holds the key `forward_scheme`, so `.get("forward_scheme",
   * "http")` gives None when the file sets no scheme; the content
   * description then calls `.upper()` on it, the exception is caught and the
   * entity is lost.
   */
  function CreateProxyHostEntityAsWritten(p: ParsedConfig, now: string): (r: Option<ProxyHost>)
    ensures r.Some? <==> Truthy(p.serverName) && p.forwardScheme.Some?
  {
    if !Truthy(p.serverName) then None
    else if p.forwardScheme.None? then None
    else Some(Entity(p, p.serverName.value, p.forwardScheme.value, now))
  }

  /** NPMConfigParser.create_proxy_host_entity with a missing scheme read as "http", the default the code asks for. */
  function CreateProxyHostEntity(p: ParsedConfig, now: string): (r: Option<ProxyHost>)
    ensures r.Some? <==> Truthy(p.serverName)
    ensures r.Some? ==> r.value.backendProtocol == (if p.forwardScheme.Some? then p.forwardScheme.value else "http")
  {
    if !Truthy(p.serverName) then None
    else Some(Entity(p, p.serverName.value, if p.forwardScheme.Some? then p.forwardScheme.value else "http", now))
  }

  /** The entity's id, title, domain list and the frontend/SSL fields follow from the parsed configuration. */
  lemma ProxyHostShape(p: ParsedConfig, now: string)
    requires CreateProxyHostEntity(p, now).Some?
    ensures var e := CreateProxyHostEntity(p, now).value;
      && p.serverName.Some? && e.domain == p.serverName.value
      && e.id == "proxy_" + DomainSlug(p.serverName.value)
      && e.title == "Reverse Proxy - " + p.serverName.value
      && e.domainNames[0] == p.serverName.value && e.domainNames[1..] == p.serverNameAliases
      && (e.ssl.Some? <==> p.sslEnabled)
      && e.listenPort == (if p.sslEnabled then 443 else 80)
      && (e.ssl.Some? && e.ssl.value.certificateName.Some? ==> e.ssl.value.provider == Some("letsencrypt"))
  {
  }

  /** Entities of two domains that differ only in case, or in '.' against '_', share their id. */
  lemma ProxyIdIgnoresCaseAndSeparators(a: string, b: string)
    requires |a| == |b|
    requires forall k :: 0 <= k < |a| ==> (a[k] in "._" && b[k] in "._") || (LowerChar(a[k]) == LowerChar(b[k]) && a[k] !in "._" && b[k] !in "._")
    ensures DomainSlug(a) == DomainSlug(b)
  {
  }

  /** Finding, as written: a parsed file with a domain but no `set $forward_scheme` gives no entity. */
  lemma MissingSchemeLosesEntity(content: string, filePath: string, now: string)
    requires Search(content, ForwardSchemeAt, 0).None?
    requires Parse(content, filePath).Some? && Truthy(Parse(content, filePath).value.serverName)
    ensures CreateProxyHostEntityAsWritten(Parse(content, filePath).value, now).None?
    ensures CreateProxyHostEntity(Parse(content, filePath).value, now).value.backendProtocol == "http"
  {
  }
}
