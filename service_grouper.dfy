/**
 * ServiceGrouper (src/utils/service_grouper.py): groups container documents
 * into services by five passes in priority order (explicit label, name
 * prefix, dependencies, compose project, shared network), makes every
 * container left over a standalone service, marks each container with its
 * service id and builds one service document per group.
 *
 * Container documents are taken with their metadata fields already typed;
 * `service_groups` is an insertion-ordered dict, written as an association
 * list, and `ungrouped` a set.
 */
module ServiceGrouping {
  import opened Text

  /** The fields of a container document the grouper reads, and the one it writes. */
  datatype Container = Container(
    id: string,
    containerName: Option<string>,
    hostedBy: Option<string>,
    status: Option<string>,
    image: Option<string>,
    labels: map<string, string>,
    dependsOn: seq<string>,
    networks: seq<string>,
    partOfService: Option<string>)

  /** One entry of `service_groups`. */
  datatype Group = Group(serviceName: string, containers: seq<string>, groupingMethod: string)

  type Groups = seq<(string, Group)>

  // -----------------------------------------------------------------------
  // Looking containers up

  /** _find_container_by_id: the first container with the id. */
  function FindContainer(cs: seq<Container>, id: string): (r: Option<Container>)
    ensures r.None? <==> forall i :: 0 <= i < |cs| ==> cs[i].id != id
    ensures r.Some? ==> r.value in cs && r.value.id == id
  {
    if cs == [] then None
    else if cs[0].id == id then Some(cs[0])
    else FindContainer(cs[1..], id)
  }

  /** `metadata.get('hosted_by', 'unknown')` */
  function HostOf(c: Container): string {
    if c.hostedBy.Some? then c.hostedBy.value else "unknown"
  }

  /** `metadata.get('container_name', default)` */
  function NameOr(c: Container, default: string): string {
    if c.containerName.Some? then c.containerName.value else default
  }

  // -----------------------------------------------------------------------
  // Service ids

  /** The hosts of the listed containers that exist, in list order. */
  function FoundHosts(cs: seq<Container>, ids: seq<string>): (hs: seq<string>)
    ensures |hs| <= |ids|
  {
    if ids == [] then []
    else
      var rest := FoundHosts(cs, ids[..|ids| - 1]);
      match FindContainer(cs, ids[|ids| - 1])
      case Some(c) => rest + [HostOf(c)]
      case None => rest
  }

  /** `len(set(hosts)) == 1`. */
  predicate SingleHost(hs: seq<string>) {
    hs != [] && forall i :: 0 <= i < |hs| ==> hs[i] == hs[0]
  }

  /**
   * _generate_service_id. With multi-host services allowed, a service on one
   * host is "service_{host}_{name}" and one spanning several (or none found)
   * is "service_global_{name}"; otherwise the first container's host is used.
   */
  function ServiceId(allowMultiHost: bool, name: string, ids: seq<string>, cs: seq<Container>): (sid: string)
    requires ids != []
    ensures StartsWith(sid, "service_") && EndsWith(sid, "_" + name)
  {
    var host :=
      if !allowMultiHost then
        (match FindContainer(cs, ids[0]) case Some(c) => HostOf(c) case None => "unknown")
      else
        var hs := FoundHosts(cs, ids);
        if SingleHost(hs) then hs[0] else "global";
    var sid := "service_" + host + "_" + name;
    assert sid[..8] == "service_";
    assert sid[|sid| - |name| - 1..] == "_" + name;
    sid
  }

  /** All found containers on one host: the id names that host, whichever mode is used. */
  lemma {:induction false} ServiceIdOneHost(allowMultiHost: bool, name: string, ids: seq<string>, cs: seq<Container>, host: string)
    requires ids != []
    requires forall i :: 0 <= i < |ids| ==> FindContainer(cs, ids[i]).Some? && HostOf(FindContainer(cs, ids[i]).value) == host
    ensures ServiceId(allowMultiHost, name, ids, cs) == "service_" + host + "_" + name
  {
    FoundHostsAll(cs, ids, host);
  }

  lemma {:induction false} FoundHostsAll(cs: seq<Container>, ids: seq<string>, host: string)
    requires forall i :: 0 <= i < |ids| ==> FindContainer(cs, ids[i]).Some? && HostOf(FindContainer(cs, ids[i]).value) == host
    ensures |FoundHosts(cs, ids)| == |ids|
    ensures forall i :: 0 <= i < |ids| ==> FoundHosts(cs, ids)[i] == host
  {
    if ids != [] {
      FoundHostsAll(cs, ids[..|ids| - 1], host);
    }
  }

  /** Two containers on different hosts make a global service when multi-host services are allowed. */
  lemma ServiceIdTwoHosts(name: string, ids: seq<string>, cs: seq<Container>)
    requires ids != []
    requires !SingleHost(FoundHosts(cs, ids))
    ensures ServiceId(true, name, ids, cs) == "service_global_" + name
  {
  }

  // -----------------------------------------------------------------------
  // Grouping keys

  /** `labels.get(key)`, with a missing label as the empty (false) string. */
  function LabelValue(labels: map<string, string>, key: string): string {
    if key in labels then labels[key] else ""
  }

  const ServiceLabelKeys: seq<string> := ["com.docker.service", "app", "service", "app.kubernetes.io/name"]

  /** The first non-empty service-identifying label, in priority order; "" when there is none. */
  function ServiceLabel(c: Container): (r: string)
    ensures r == "" <==> forall i :: 0 <= i < |ServiceLabelKeys| ==> LabelValue(c.labels, ServiceLabelKeys[i]) == ""
    ensures r != "" ==> exists i :: (0 <= i < |ServiceLabelKeys| && r == LabelValue(c.labels, ServiceLabelKeys[i])
                                     && forall j :: 0 <= j < i ==> LabelValue(c.labels, ServiceLabelKeys[j]) == "")
  {
    var a := LabelValue(c.labels, ServiceLabelKeys[0]);
    var b := LabelValue(c.labels, ServiceLabelKeys[1]);
    var s := LabelValue(c.labels, ServiceLabelKeys[2]);
    var k := LabelValue(c.labels, ServiceLabelKeys[3]);
    if a != "" then a else if b != "" then b else if s != "" then s else k
  }

  const CommonSuffixes: seq<string> := ["db", "database", "redis", "cache", "web", "app", "worker", "cron", "nginx", "proxy", "api"]

  predicate IsSep(c: char) { c == '-' || c == '_' }

  /** A separator followed by the word ends `s`. */
  predicate EndsWithSuffixWord(s: string, w: string) {
    |w| + 1 <= |s| && IsSep(s[|s| - |w| - 1]) && s[|s| - |w|..] == w
  }

  /** The length of the `[-_](db|database|...|api)` that ends `s`, trying the words in turn; 0 when none does. */
  function SuffixMatch(s: string, words: seq<string>): (n: nat)
    ensures n == 0 <==> forall i :: 0 <= i < |words| ==> !EndsWithSuffixWord(s, words[i])
    ensures n != 0 ==> exists i :: 0 <= i < |words| && EndsWithSuffixWord(s, words[i]) && n == |words[i]| + 1
  {
    if words == [] then 0
    else if EndsWithSuffixWord(s, words[0]) then |words[0]| + 1
    else
      var n := SuffixMatch(s, words[1..]);
      assert forall i :: 1 <= i < |words| ==> words[i] == words[1..][i - 1];
      n
  }

  /** The start of the digit run that ends `s`. */
  function TrailingDigitsStart(s: string): (k: nat)
    ensures k <= |s| && AllDigits(s[k..])
    ensures k > 0 ==> !IsDigit(s[k - 1])
  {
    if s == [] || !IsDigit(s[|s| - 1]) then |s|
    else
      var k := TrailingDigitsStart(s[..|s| - 1]);
      assert s[k..] == s[..|s| - 1][k..] + [s[|s| - 1]];
      k
  }

  /** `re.sub(r'[-_](w1|w2|...)$', '', s)` on a string without a final newline. */
  function DropWord(s: string, words: seq<string>): (r: string)
    ensures |r| <= |s| && r == s[..|r|]
  {
    s[..|s| - SuffixMatch(s, words)]
  }

  /** `re.sub(r'[-_]\d+$', '', s)` on a string without a final newline. */
  function DropNumber(s: string): (r: string)
    ensures |r| <= |s| && r == s[..|r|]
  {
    var k := TrailingDigitsStart(s);
    if 0 < k < |s| && IsSep(s[k - 1]) then s[..k - 1] else s
  }

  // A pattern anchored with `$` also matches just before a final newline;
  // neither pattern can match across it, so the substitution applies to the
  // text before that newline and the newline is kept.

  function StripWord(s: string, words: seq<string>): string {
    if s != [] && s[|s| - 1] == '\n' then DropWord(s[..|s| - 1], words) + "\n" else DropWord(s, words)
  }

  function StripNumber(s: string): string {
    if s != [] && s[|s| - 1] == '\n' then DropNumber(s[..|s| - 1]) + "\n" else DropNumber(s)
  }

  /** The prefix extraction with the suffix words as a parameter. */
  function PrefixWith(name: string, words: seq<string>): (r: string)
    ensures |r| <= |name|
  {
    if name == "" then "" else Lower(StripNumber(StripWord(name, words)))
  }

  /** _extract_service_prefix */
  function ExtractServicePrefix(name: string): (r: string)
    ensures |r| <= |name|
  {
    PrefixWith(name, CommonSuffixes)
  }

  /** Every word is non-empty and made of characters other than separators, digits and newlines. */
  predicate PlainWords(words: seq<string>) {
    forall i :: 0 <= i < |words| ==>
      (words[i] != [] && forall k :: 0 <= k < |words[i]| ==> !IsSep(words[i][k]) && !IsDigit(words[i][k]) && words[i][k] != '\n')
  }

  lemma SuffixWordsArePlain()
    ensures PlainWords(CommonSuffixes)
  {
  }

  /** The separator-word match at the end of a string is unique in length. */
  lemma SuffixMatchOf(base: string, sep: char, w: string, words: seq<string>)
    requires IsSep(sep) && w in words && PlainWords(words)
    ensures SuffixMatch(base + [sep] + w, words) == |w| + 1
  {
    var s := base + [sep] + w;
    var iw :| 0 <= iw < |words| && words[iw] == w;
    assert s[|s| - |w|..] == w;
    assert EndsWithSuffixWord(s, w);
    var n := SuffixMatch(s, words);
    var i :| 0 <= i < |words| && EndsWithSuffixWord(s, words[i]) && n == |words[i]| + 1;
  }

  lemma PrefixWithDropsWord(base: string, sep: char, w: string, words: seq<string>)
    requires IsSep(sep) && w in words && PlainWords(words)
    ensures PrefixWith(base + [sep] + w, words) == Lower(StripNumber(base))
  {
    var s := base + [sep] + w;
    assert StripWord(s, words) == base by {
      var iw :| 0 <= iw < |words| && words[iw] == w;
      assert s[|s| - 1] != '\n' by {
        assert w != [] && s[|s| - 1] == w[|w| - 1];
        assert words[iw][|w| - 1] != '\n';
      }
      SuffixMatchOf(base, sep, w, words);
      assert DropWord(s, words) == s[..|s| - |w| - 1];
      assert s[..|s| - |w| - 1] == base;
    }
    assert s != "";
  }

  /** "name-db", "name_redis", ...: exactly one known suffix word is dropped, then a trailing number. */
  lemma PrefixDropsSuffixWord(base: string, sep: char, w: string)
    requires IsSep(sep) && w in CommonSuffixes
    ensures ExtractServicePrefix(base + [sep] + w) == Lower(StripNumber(base))
  {
    SuffixWordsArePlain();
    PrefixWithDropsWord(base, sep, w, CommonSuffixes);
  }

  lemma PrefixWithDropsNumber(base: string, sep: char, digits: string, words: seq<string>)
    requires IsSep(sep) && digits != [] && AllDigits(digits) && PlainWords(words)
    ensures PrefixWith(base + [sep] + digits, words) == Lower(base)
  {
    var s := base + [sep] + digits;
    assert s[|s| - 1] == digits[|digits| - 1];
    assert SuffixMatch(s, words) == 0 by {
      assert forall i :: 0 <= i < |words| ==> !EndsWithSuffixWord(s, words[i]);
    }
    assert StripWord(s, words) == s;
    var k := TrailingDigitsStart(s);
    assert k == |base| + 1 by {
      TrailingDigitsStartAt(s, |base| + 1);
    }
    assert s[..k - 1] == base;
  }

  /** "name-1", "name_42": the number and its separator are dropped. */
  lemma PrefixDropsNumber(base: string, sep: char, digits: string)
    requires IsSep(sep) && digits != [] && AllDigits(digits)
    ensures ExtractServicePrefix(base + [sep] + digits) == Lower(base)
  {
    SuffixWordsArePlain();
    PrefixWithDropsNumber(base, sep, digits, CommonSuffixes);
  }

  /** "nextcloud": a name without a separator is only lower-cased. */
  lemma PrefixKeepsPlainName(name: string)
    requires name != [] && name[|name| - 1] != '\n'
    requires forall i :: 0 <= i < |name| ==> !IsSep(name[i])
    ensures ExtractServicePrefix(name) == Lower(name)
  {
    assert SuffixMatch(name, CommonSuffixes) == 0 by {
      forall i | 0 <= i < |CommonSuffixes| ensures !EndsWithSuffixWord(name, CommonSuffixes[i]) {
        if |CommonSuffixes[i]| + 1 <= |name| {
          assert !IsSep(name[|name| - |CommonSuffixes[i]| - 1]);
        }
      }
    }
    assert StripWord(name, CommonSuffixes) == name;
    assert StripNumber(name) == name;
  }

  lemma {:induction false} TrailingDigitsStartAt(s: string, k: nat)
    requires 0 < k <= |s| && AllDigits(s[k..]) && !IsDigit(s[k - 1])
    ensures TrailingDigitsStart(s) == k
    decreases |s|
  {
    if k < |s| {
      assert s[..|s| - 1][k..] == s[k..|s| - 1];
      assert s[..|s| - 1][k - 1] == s[k - 1];
      TrailingDigitsStartAt(s[..|s| - 1], k);
    }
  }

  const DefaultNetworks: set<string> := {"bridge", "host", "none", "default"}

  /** The container's networks other than the default ones, in order. */
  function CustomNetworks(networks: seq<string>): (r: seq<string>)
    ensures forall i :: 0 <= i < |r| ==> r[i] in networks && r[i] !in DefaultNetworks
    ensures forall n :: n in networks && n !in DefaultNetworks ==> n in r
  {
    if networks == [] then []
    else
      var rest := CustomNetworks(networks[..|networks| - 1]);
      var n := networks[|networks| - 1];
      assert networks == networks[..|networks| - 1] + [n];
      if n in DefaultNetworks then rest else rest + [n]
  }

  /** `network_name.replace('_network', '').replace('-network', '')` */
  function NetworkServiceName(network: string): string {
    Replace(Replace(network, "_network", ""), "-network", "")
  }

  /** The grouping passes that bucket containers by a key. */
  datatype KeyPass = ByLabel | ByPrefix | ByCompose | ByNetwork

  /** The keys a container is bucketed under in a pass: at most one, except for networks. */
  function KeysOf(pass: KeyPass, c: Container): (ks: seq<string>)
    ensures pass != ByNetwork ==> |ks| <= 1 && forall i :: 0 <= i < |ks| ==> ks[i] != ""
  {
    match pass
    case ByLabel => var l := ServiceLabel(c); if l != "" then [l] else []
    case ByPrefix => var p := ExtractServicePrefix(NameOr(c, "")); if p != "" then [p] else []
    case ByCompose => var p := LabelValue(c.labels, "com.docker.compose.project"); if p != "" then [p] else []
    case ByNetwork => CustomNetworks(c.networks)
  }

  /** How many containers a bucket needs to become a group. */
  function MinSize(pass: KeyPass): nat {
    if pass == ByPrefix || pass == ByNetwork then 2 else 1
  }

  function MethodName(pass: KeyPass): string {
    match pass
    case ByLabel => "explicit_label"
    case ByPrefix => "name_prefix"
    case ByCompose => "compose_project"
    case ByNetwork => "shared_network"
  }

  function GroupName(pass: KeyPass, key: string): string {
    if pass == ByNetwork then NetworkServiceName(key) else key
  }

  // -----------------------------------------------------------------------
  // Buckets: `defaultdict(list)` in first-insertion order

  type Buckets = seq<(string, seq<string>)>

  function BucketKeys(bs: Buckets): (ks: seq<string>)
    ensures |ks| == |bs| && forall i :: 0 <= i < |bs| ==> ks[i] == bs[i].0
  {
    if bs == [] then [] else [bs[0].0] + BucketKeys(bs[1..])
  }

  /** `buckets[key].append(id)` */
  function AddToBucket(bs: Buckets, key: string, id: string): (r: Buckets)
    ensures |r| == |bs| || |r| == |bs| + 1
    ensures forall i :: 0 <= i < |bs| ==> r[i].0 == bs[i].0
    ensures forall i :: 0 <= i < |bs| ==> r[i].1 == bs[i].1 || (bs[i].0 == key && r[i].1 == bs[i].1 + [id])
    ensures |r| == |bs| + 1 <==> key !in BucketKeys(bs)
    ensures |r| == |bs| + 1 ==> r[|bs|] == (key, [id])
  {
    if bs == [] then [(key, [id])]
    else
      assert BucketKeys(bs) == [bs[0].0] + BucketKeys(bs[1..]);
      if bs[0].0 == key then [(key, bs[0].1 + [id])] + bs[1..]
      else [bs[0]] + AddToBucket(bs[1..], key, id)
  }

  lemma AddToBucketKeeps(bs: Buckets, key: string, id: string, ids: set<string>)
    requires BucketsOf(bs, ids) && id in ids
    ensures BucketsOf(AddToBucket(bs, key, id), ids)
  {
    var r := AddToBucket(bs, key, id);
    forall i | 0 <= i < |r| ensures r[i].1 != [] && forall j :: 0 <= j < |r[i].1| ==> r[i].1[j] in ids {
      if i < |bs| {
        assert r[i].1 == bs[i].1 || r[i].1 == bs[i].1 + [id];
      }
    }
  }

  /** The id appended under each of the keys, in order. */
  function AddUnderKeys(bs: Buckets, keys: seq<string>, id: string): Buckets {
    if keys == [] then bs
    else AddToBucket(AddUnderKeys(bs, keys[..|keys| - 1], id), keys[|keys| - 1], id)
  }

  /** Every bucket is non-empty and holds only the given ids. */
  predicate BucketsOf(bs: Buckets, ids: set<string>) {
    forall i :: 0 <= i < |bs| ==> bs[i].1 != [] && forall j :: 0 <= j < |bs[i].1| ==> bs[i].1[j] in ids
  }

  /** The first loop of a pass: the still-ungrouped containers, in list order, bucketed by their keys. */
  function BucketContainers(pass: KeyPass, cs: seq<Container>, ungrouped: set<string>): (bs: Buckets)
    ensures BucketsOf(bs, ungrouped)
  {
    if cs == [] then []
    else
      var prev := BucketContainers(pass, cs[..|cs| - 1], ungrouped);
      var c := cs[|cs| - 1];
      if c.id in ungrouped then
        AddUnderKeysKeeps(prev, KeysOf(pass, c), c.id, ungrouped);
        AddUnderKeys(prev, KeysOf(pass, c), c.id)
      else prev
  }

  lemma {:induction false} AddUnderKeysKeeps(bs: Buckets, keys: seq<string>, id: string, ids: set<string>)
    requires BucketsOf(bs, ids) && id in ids
    ensures BucketsOf(AddUnderKeys(bs, keys, id), ids)
  {
    if keys != [] {
      AddUnderKeysKeeps(bs, keys[..|keys| - 1], id, ids);
      AddToBucketKeeps(AddUnderKeys(bs, keys[..|keys| - 1], id), keys[|keys| - 1], id, ids);
    }
  }

  /** `service_groups[sid] = group`: an existing id keeps its place and loses its old group. */
  function SetGroup(gs: Groups, sid: string, g: Group): (r: Groups)
    ensures (sid, g) in r
    ensures forall p :: p in r ==> p == (sid, g) || p in gs
  {
    if gs == [] then [(sid, g)]
    else if gs[0].0 == sid then [(sid, g)] + gs[1..]
    else [gs[0]] + SetGroup(gs[1..], sid, g)
  }

  /** The group a big enough bucket becomes. */
  function BucketGroup(pass: KeyPass, key: string, ids: seq<string>): Group {
    Group(GroupName(pass, key), ids, MethodName(pass))
  }

  /** A group a pass may leave in `service_groups`: an old one, or a big enough bucket of ungrouped containers. */
  predicate FromPass(p: (string, Group), gs: Groups, pass: KeyPass, ungrouped: set<string>) {
    p in gs ||
    (StartsWith(p.0, "service_") && p.1.groupingMethod == MethodName(pass) && |p.1.containers| >= MinSize(pass)
     && forall j :: 0 <= j < |p.1.containers| ==> p.1.containers[j] in ungrouped)
  }

  /** The id is in a bucket big enough to become a group. */
  predicate InBigBucket(x: string, bs: Buckets, pass: KeyPass) {
    exists i :: 0 <= i < |bs| && |bs[i].1| >= MinSize(pass) && x in bs[i].1
  }

  /** One bucket of the second loop: a big enough bucket becomes a group and leaves the ungrouped set. */
  function AssignStep(pass: KeyPass, allowMultiHost: bool, cs: seq<Container>, acc: (Groups, set<string>),
                      b: (string, seq<string>)): (r: (Groups, set<string>))
    requires b.1 != []
    ensures |b.1| < MinSize(pass) ==> r == acc
    ensures |b.1| >= MinSize(pass) ==> (r.1 == acc.1 - set id | id in b.1) && (forall x :: x in b.1 ==> x !in r.1)
  {
    if |b.1| >= MinSize(pass) then
      (SetGroup(acc.0, ServiceId(allowMultiHost, GroupName(pass, b.0), b.1, cs), BucketGroup(pass, b.0, b.1)),
       acc.1 - set id | id in b.1)
    else acc
  }

  /** The second loop of a pass: each big enough bucket, in order, becomes a group and leaves the ungrouped set. */
  function AssignBuckets(pass: KeyPass, allowMultiHost: bool, cs: seq<Container>, bs: Buckets,
                         gs: Groups, ungrouped: set<string>): (r: (Groups, set<string>))
    requires forall i :: 0 <= i < |bs| ==> bs[i].1 != []
  {
    if bs == [] then (gs, ungrouped)
    else AssignStep(pass, allowMultiHost, cs, AssignBuckets(pass, allowMultiHost, cs, bs[..|bs| - 1], gs, ungrouped), bs[|bs| - 1])
  }

  lemma AssignBucketsSnoc(pass: KeyPass, allowMultiHost: bool, cs: seq<Container>, bs: Buckets,
                          gs: Groups, ungrouped: set<string>, i: nat)
    requires i < |bs| && forall k :: 0 <= k < |bs| ==> bs[k].1 != []
    ensures AssignBuckets(pass, allowMultiHost, cs, bs[..i + 1], gs, ungrouped)
         == AssignStep(pass, allowMultiHost, cs, AssignBuckets(pass, allowMultiHost, cs, bs[..i], gs, ungrouped), bs[i])
  {
    assert bs[..i + 1][..i] == bs[..i] && bs[..i + 1][i] == bs[i];
  }

  /** One of the label, prefix, compose and network passes. */
  function KeyPassResult(pass: KeyPass, allowMultiHost: bool, cs: seq<Container>, gs: Groups, ungrouped: set<string>)
    : (Groups, set<string>)
  {
    AssignBuckets(pass, allowMultiHost, cs, BucketContainers(pass, cs, ungrouped), gs, ungrouped)
  }

  lemma BucketContainersSnoc(pass: KeyPass, cs: seq<Container>, ungrouped: set<string>, i: nat)
    requires i < |cs|
    ensures BucketContainers(pass, cs[..i + 1], ungrouped)
         == if cs[i].id in ungrouped then AddUnderKeys(BucketContainers(pass, cs[..i], ungrouped), KeysOf(pass, cs[i]), cs[i].id)
            else BucketContainers(pass, cs[..i], ungrouped)
  {
    assert cs[..i + 1][..i] == cs[..i] && cs[..i + 1][i] == cs[i];
  }

  lemma AddUnderKeysSnoc(bs: Buckets, keys: seq<string>, j: nat, id: string)
    requires j < |keys|
    ensures AddUnderKeys(bs, keys[..j + 1], id) == AddToBucket(AddUnderKeys(bs, keys[..j], id), keys[j], id)
  {
    assert keys[..j + 1][..j] == keys[..j] && keys[..j + 1][j] == keys[j];
  }

  /** The first loop of a pass, written out. */
  method CollectBuckets(pass: KeyPass, cs: seq<Container>, ungrouped: set<string>) returns (bs: Buckets)
    ensures bs == BucketContainers(pass, cs, ungrouped)
  {
    bs := [];
    var i := 0;
    while i < |cs|
      invariant 0 <= i <= |cs|
      invariant bs == BucketContainers(pass, cs[..i], ungrouped)
    {
      BucketContainersSnoc(pass, cs, ungrouped, i);
      var c := cs[i];
      if c.id in ungrouped {
        var keys := KeysOf(pass, c);
        ghost var start := bs;
        var j := 0;
        while j < |keys|
          invariant 0 <= j <= |keys|
          invariant bs == AddUnderKeys(start, keys[..j], c.id)
        {
          AddUnderKeysSnoc(start, keys, j, c.id);
          bs := AddToBucket(bs, keys[j], c.id);
          j := j + 1;
        }
        assert keys[..|keys|] == keys;
      }
      i := i + 1;
    }
    assert cs[..|cs|] == cs;
  }

  /**
   * _group_by_labels, _group_by_name_prefix, _group_by_compose_project and
   * _group_by_network: bucket the ungrouped containers, then turn each big
   * enough bucket into a group.
   */
  method GroupByKey(pass: KeyPass, allowMultiHost: bool, cs: seq<Container>, groups: Groups, ungrouped: set<string>)
    returns (groups': Groups, ungrouped': set<string>)
    ensures (groups', ungrouped') == KeyPassResult(pass, allowMultiHost, cs, groups, ungrouped)
  {
    var bs := CollectBuckets(pass, cs, ungrouped);
    groups', ungrouped' := groups, ungrouped;
    var i := 0;
    while i < |bs|
      invariant 0 <= i <= |bs|
      invariant (groups', ungrouped') == AssignBuckets(pass, allowMultiHost, cs, bs[..i], groups, ungrouped)
    {
      AssignBucketsSnoc(pass, allowMultiHost, cs, bs, groups, ungrouped, i);
      var key, ids := bs[i].0, bs[i].1;
      if |ids| >= MinSize(pass) {
        var name := GroupName(pass, key);
        groups' := SetGroup(groups', ServiceId(allowMultiHost, name, ids, cs), Group(name, ids, MethodName(pass)));
        ungrouped' := ungrouped' - set id | id in ids;
      }
      i := i + 1;
    }
    assert bs[..|bs|] == bs;
  }

  /**
   * What a pass adds: every group is an old one or a bucket of at least the
   * pass's minimum size drawn from the ungrouped containers; the ungrouped
   * set only shrinks, and only by the ids of those buckets.
   */
  lemma {:induction false} AssignBucketsSound(pass: KeyPass, allowMultiHost: bool, cs: seq<Container>, bs: Buckets,
                                              gs: Groups, ungrouped: set<string>)
    requires BucketsOf(bs, ungrouped)
    ensures AssignBuckets(pass, allowMultiHost, cs, bs, gs, ungrouped).1 <= ungrouped
    ensures forall x :: x in ungrouped && x !in AssignBuckets(pass, allowMultiHost, cs, bs, gs, ungrouped).1 ==>
              InBigBucket(x, bs, pass)
    ensures forall p :: p in AssignBuckets(pass, allowMultiHost, cs, bs, gs, ungrouped).0 ==>
              FromPass(p, gs, pass, ungrouped)
  {
    if bs != [] {
      var pre := bs[..|bs| - 1];
      assert BucketsOf(pre, ungrouped);
      AssignBucketsSound(pass, allowMultiHost, cs, pre, gs, ungrouped);
      var (gs', un') := AssignBuckets(pass, allowMultiHost, cs, pre, gs, ungrouped);
      var ids := bs[|bs| - 1].1;
      if |ids| >= MinSize(pass) {
        var un2 := un' - set id | id in ids;
        forall x | x in ungrouped && x !in un2 ensures InBigBucket(x, bs, pass) {
          if x !in un' {
            var i :| 0 <= i < |pre| && |pre[i].1| >= MinSize(pass) && x in pre[i].1;
            assert bs[i] == pre[i];
          } else {
            assert x in ids && bs[|bs| - 1].1 == ids;
          }
        }
      } else {
        forall x | x in ungrouped && x !in un' ensures InBigBucket(x, bs, pass) {
          var i :| 0 <= i < |pre| && |pre[i].1| >= MinSize(pass) && x in pre[i].1;
          assert bs[i] == pre[i];
        }
      }
    }
  }

  /** Each pass groups only containers that were ungrouped when it started, and the ungrouped set only shrinks. */
  lemma PassOnlyUngrouped(pass: KeyPass, allowMultiHost: bool, cs: seq<Container>, gs: Groups, ungrouped: set<string>)
    ensures KeyPassResult(pass, allowMultiHost, cs, gs, ungrouped).1 <= ungrouped
    ensures forall p :: p in KeyPassResult(pass, allowMultiHost, cs, gs, ungrouped).0 ==> FromPass(p, gs, pass, ungrouped)
  {
    AssignBucketsSound(pass, allowMultiHost, cs, BucketContainers(pass, cs, ungrouped), gs, ungrouped);
  }

  // -----------------------------------------------------------------------
  // Dependencies pass

  /** depends_on_map: each ungrouped container with a non-empty depends_on; a later duplicate id wins. */
  function DependsMap(cs: seq<Container>, ungrouped: set<string>): (m: map<string, seq<string>>)
    ensures forall x :: x in m ==> x in ungrouped && m[x] != [] && exists i :: 0 <= i < |cs| && cs[i].id == x
  {
    if cs == [] then map[]
    else
      var m := DependsMap(cs[..|cs| - 1], ungrouped);
      var c := cs[|cs| - 1];
      if c.id in ungrouped && c.dependsOn != [] then m[c.id := c.dependsOn] else m
  }

  /** Every available dependency of `x` is in `s`. */
  predicate DepsInside(x: string, m: map<string, seq<string>>, available: set<string>, s: set<string>) {
    x in m ==> forall j :: 0 <= j < |m[x]| && m[x][j] in available ==> m[x][j] in s
  }

  /** No member of `s` depends on an available container outside `s`. */
  predicate Closed(s: set<string>, m: map<string, seq<string>>, available: set<string>) {
    forall x :: x in s ==> DepsInside(x, m, available, s)
  }

  /**
   * _find_dependency_cluster: breadth-first from `start` along the
   * available dependencies. The cluster is the least set holding `start`
   * that no available dependency leaves; `members` lists it in the order
   * the search reaches it.
   */
  method FindDependencyCluster(start: string, m: map<string, seq<string>>, available: set<string>)
    returns (cluster: set<string>, members: seq<string>)
    ensures start in cluster && cluster - {start} <= available
    ensures Closed(cluster, m, available)
    ensures forall s :: start in s && Closed(s, m, available) ==> cluster <= s
    ensures NoDuplicates(members) && (forall x :: x in members <==> x in cluster) && members[0] == start
  {
    cluster := {start};
    members := [start];
    var queue := [start];
    while queue != []
      invariant start in cluster && cluster - {start} <= available
      invariant forall x :: x in queue ==> x in cluster
      invariant forall x :: x in cluster && x !in queue ==> DepsInside(x, m, available, cluster)
      invariant forall s :: start in s && Closed(s, m, available) ==> cluster <= s
      invariant NoDuplicates(members) && (forall x :: x in members <==> x in cluster) && members[0] == start
      decreases available - cluster, |queue|
    {
      var current := queue[0];
      queue := queue[1..];
      var deps := if current in m then m[current] else [];
      ghost var before, rest := cluster, queue;
      var j := 0;
      while j < |deps|
        invariant 0 <= j <= |deps|
        invariant before <= cluster && cluster - {start} <= available && current in cluster
        invariant cluster == before ==> queue == rest
        invariant cluster != before ==> available - cluster < available - before
        invariant forall x :: x in rest ==> x in queue
        invariant forall x :: x in queue ==> x in cluster
        invariant forall x :: x in cluster && x !in queue && x != current ==> DepsInside(x, m, available, cluster)
        invariant forall k :: 0 <= k < j && deps[k] in available ==> deps[k] in cluster
        invariant forall s :: start in s && Closed(s, m, available) ==> cluster <= s
        invariant NoDuplicates(members) && (forall x :: x in members <==> x in cluster) && members[0] == start
      {
        var dep := deps[j];
        if dep in available && dep !in cluster {
          forall s | start in s && Closed(s, m, available) ensures dep in s {
            assert DepsInside(current, m, available, s);
          }
          cluster := cluster + {dep};
          members := members + [dep];
          queue := queue + [dep];
        }
        j := j + 1;
      }
      assert DepsInside(current, m, available, cluster);
    }
  }

  /** The first loop of the dependencies pass, written out. */
  method BuildDependsMap(cs: seq<Container>, ungrouped: set<string>) returns (m: map<string, seq<string>>)
    ensures m == DependsMap(cs, ungrouped)
  {
    m := map[];
    var i := 0;
    while i < |cs|
      invariant 0 <= i <= |cs|
      invariant m == DependsMap(cs[..i], ungrouped)
    {
      assert cs[..i + 1][..i] == cs[..i] && cs[..i + 1][i] == cs[i];
      if cs[i].id in ungrouped && cs[i].dependsOn != [] {
        m := m[cs[i].id := cs[i].dependsOn];
      }
      i := i + 1;
    }
    assert cs[..|cs|] == cs;
  }

  /** A group the dependencies pass makes: two or more distinct containers, all ungrouped when the pass began. */
  predicate DependencyGroup(p: (string, Group), ungrouped: set<string>) {
    StartsWith(p.0, "service_") && p.1.groupingMethod == "dependencies" && |p.1.containers| >= 2
    && NoDuplicates(p.1.containers)
    && forall j :: 0 <= j < |p.1.containers| ==> p.1.containers[j] in ungrouped
  }

  /** A container still ungrouped with dependencies has none ungrouped but itself. */
  predicate Settled(x: string, m: map<string, seq<string>>, un: set<string>) {
    x in un && x in m ==> forall j :: 0 <= j < |m[x]| && m[x][j] != x ==> m[x][j] !in un
  }

  /** No container left ungrouped depends on another container left ungrouped. */
  predicate NoDependencyLeft(m: map<string, seq<string>>, un: set<string>) {
    forall x :: x in un ==> Settled(x, m, un)
  }

  lemma SettledShrinks(m: map<string, seq<string>>, un: set<string>, un': set<string>)
    requires un' <= un
    ensures forall x :: Settled(x, m, un) ==> Settled(x, m, un')
  {
  }

  /** The entry a dependency cluster becomes, named after its start container. */
  function ClusterEntry(allowMultiHost: bool, cs: seq<Container>, root: Container, members: seq<string>): (p: (string, Group))
    requires members != []
    ensures p.1 == Group(p.1.serviceName, members, "dependencies")
  {
    var name := ExtractServicePrefix(NameOr(root, "unknown"));
    (ServiceId(allowMultiHost, name, members, cs), Group(name, members, "dependencies"))
  }

  /** A cluster of two or more ungrouped containers makes a dependency group. */
  lemma ClusterEntryGroup(allowMultiHost: bool, cs: seq<Container>, root: Container, id: string,
                          cluster: set<string>, members: seq<string>, ungrouped: set<string>)
    requires id in cluster && |cluster| > 1 && cluster <= ungrouped
    requires NoDuplicates(members) && (forall x :: x in members <==> x in cluster) && members[0] == id
    ensures DependencyGroup(ClusterEntry(allowMultiHost, cs, root, members), ungrouped)
  {
    assert |cluster - {id}| == |cluster| - 1;
    var other :| other in cluster - {id};
    assert other in members;
  }

  /** One iteration of the dependencies pass, for the container `id`. */
  method DependencyStep(allowMultiHost: bool, cs: seq<Container>, m: map<string, seq<string>>, id: string,
                        groups: Groups, ungrouped: set<string>, un: set<string>, visited: set<string>)
    returns (groups': Groups, un': set<string>, visited': set<string>)
    requires m == DependsMap(cs, ungrouped)
    requires un <= ungrouped && visited == ungrouped - un
    ensures un' <= un && visited' == ungrouped - un'
    ensures forall x :: Settled(x, m, un) ==> Settled(x, m, un')
    ensures Settled(id, m, un')
    ensures forall p :: p in groups' ==> p in groups || DependencyGroup(p, ungrouped)
  {
    groups', un', visited' := groups, un, visited;
    if id !in visited && id in m {
      var cluster, members := FindDependencyCluster(id, m, un);
      assert |cluster - {id}| == |cluster| - 1;
      if |cluster| > 1 {
        var root := FindContainer(cs, id);
        var entry := ClusterEntry(allowMultiHost, cs, root.value, members);
        ClusterEntryGroup(allowMultiHost, cs, root.value, id, cluster, members, ungrouped);
        groups' := SetGroup(groups, entry.0, entry.1);
        un' := un - cluster;
        visited' := visited + cluster;
        SettledShrinks(m, un, un');
      } else {
        assert cluster - {id} == {};
        assert cluster == {id};
        assert DepsInside(id, m, un, cluster);
      }
    }
  }

  /**
   * _group_by_dependencies. `order` is the order in which `list(ungrouped)`
   * enumerates the set, which Python leaves unspecified. Each ungrouped
   * container with dependencies that no earlier cluster took starts a
   * search among the containers still ungrouped; a cluster of two or more
   * becomes a group named after the start container's name prefix.
   */
  method GroupByDependencies(allowMultiHost: bool, cs: seq<Container>, groups: Groups, ungrouped: set<string>,
                             order: seq<string>)
    returns (groups': Groups, ungrouped': set<string>)
    requires Enumerates(order, ungrouped)
    ensures ungrouped' <= ungrouped
    ensures NoDependencyLeft(DependsMap(cs, ungrouped), ungrouped')
    ensures forall p :: p in groups' ==> p in groups || DependencyGroup(p, ungrouped)
  {
    var m := BuildDependsMap(cs, ungrouped);
    groups', ungrouped' := groups, ungrouped;
    var visited: set<string> := {};
    var i := 0;
    while i < |order|
      invariant 0 <= i <= |order|
      invariant ungrouped' <= ungrouped && visited == ungrouped - ungrouped'
      invariant forall k :: 0 <= k < i ==> Settled(order[k], m, ungrouped')
      invariant forall p :: p in groups' ==> p in groups || DependencyGroup(p, ungrouped)
    {
      groups', ungrouped', visited := DependencyStep(allowMultiHost, cs, m, order[i], groups', ungrouped, ungrouped', visited);
      i := i + 1;
    }
    forall x | x in ungrouped' ensures Settled(x, m, ungrouped') {
      var k :| 0 <= k < |order| && order[k] == x;
    }
  }

  // -----------------------------------------------------------------------
  // Standalone services

  /** A standalone entry: one found container, named after it, with the id built from that name. */
  predicate StandaloneEntry(p: (string, Group), allowMultiHost: bool, cs: seq<Container>, ids: seq<string>) {
    p.1.groupingMethod == "standalone" && |p.1.containers| == 1 && p.1.containers[0] in ids
    && FindContainer(cs, p.1.containers[0]).Some?
    && p.1.serviceName == NameOr(FindContainer(cs, p.1.containers[0]).value, "unknown")
    && p.0 == ServiceId(allowMultiHost, p.1.serviceName, p.1.containers, cs)
  }

  /**
   * _create_standalone_services over the ungrouped ids in the order `ids`:
   * each id whose container is found becomes a one-container service.
   */
  function Standalone(allowMultiHost: bool, cs: seq<Container>, gs: Groups, ids: seq<string>): (r: Groups)
    ensures forall p :: p in r ==> p in gs || StandaloneEntry(p, allowMultiHost, cs, ids)
  {
    if ids == [] then gs
    else
      var prev := Standalone(allowMultiHost, cs, gs, ids[..|ids| - 1]);
      var id := ids[|ids| - 1];
      assert forall p :: StandaloneEntry(p, allowMultiHost, cs, ids[..|ids| - 1]) ==> StandaloneEntry(p, allowMultiHost, cs, ids);
      match FindContainer(cs, id)
      case None => prev
      case Some(c) =>
        var name := NameOr(c, "unknown");
        assert StandaloneEntry((ServiceId(allowMultiHost, name, [id], cs), Group(name, [id], "standalone")), allowMultiHost, cs, ids);
        SetGroup(prev, ServiceId(allowMultiHost, name, [id], cs), Group(name, [id], "standalone"))
  }

  /** The last found id always keeps its standalone service: nothing after it can overwrite it. */
  lemma LastStandaloneKept(allowMultiHost: bool, cs: seq<Container>, gs: Groups, ids: seq<string>)
    requires ids != [] && FindContainer(cs, ids[|ids| - 1]).Some?
    ensures var id := ids[|ids| - 1];
            var name := NameOr(FindContainer(cs, id).value, "unknown");
            (ServiceId(allowMultiHost, name, [id], cs), Group(name, [id], "standalone")) in Standalone(allowMultiHost, cs, gs, ids)
  {
  }

  /** `order` is an enumeration of the set `s`. */
  ghost predicate Enumerates(order: seq<string>, s: set<string>) {
    NoDuplicates(order) && forall x :: x in order <==> x in s
  }

  lemma StandaloneSnoc(allowMultiHost: bool, cs: seq<Container>, gs: Groups, ids: seq<string>, i: nat)
    requires i < |ids|
    ensures var prev := Standalone(allowMultiHost, cs, gs, ids[..i]);
      Standalone(allowMultiHost, cs, gs, ids[..i + 1])
      == match FindContainer(cs, ids[i])
         case None => prev
         case Some(c) =>
           var name := NameOr(c, "unknown");
           SetGroup(prev, ServiceId(allowMultiHost, name, [ids[i]], cs), Group(name, [ids[i]], "standalone"))
  {
    assert ids[..i + 1][..i] == ids[..i] && ids[..i + 1][i] == ids[i];
  }

  /** The loop of _create_standalone_services, written out. */
  method CreateStandaloneServices(allowMultiHost: bool, cs: seq<Container>, groups: Groups, ungrouped: set<string>,
                                  order: seq<string>)
    returns (groups': Groups)
    requires Enumerates(order, ungrouped)
    ensures groups' == Standalone(allowMultiHost, cs, groups, order)
  {
    groups' := groups;
    var i := 0;
    while i < |order|
      invariant 0 <= i <= |order|
      invariant groups' == Standalone(allowMultiHost, cs, groups, order[..i])
    {
      StandaloneSnoc(allowMultiHost, cs, groups, order, i);
      var c := FindContainer(cs, order[i]);
      if c.Some? {
        var name := NameOr(c.value, "unknown");
        groups' := SetGroup(groups', ServiceId(allowMultiHost, name, [order[i]], cs), Group(name, [order[i]], "standalone"));
      }
      i := i + 1;
    }
    assert order[..|order|] == order;
  }

  // -----------------------------------------------------------------------
  // Marking containers with their service

  /** Every id of `ids` now maps to `sid`; the other entries stay. */
  function MapIds(m: map<string, string>, ids: seq<string>, sid: string): (r: map<string, string>)
    ensures forall x :: x in r <==> x in m || x in ids
    ensures forall x :: x in ids ==> r[x] == sid
    ensures forall x :: x in m && x !in ids ==> r[x] == m[x]
  {
    if ids == [] then m else MapIds(m, ids[..|ids| - 1], sid)[ids[|ids| - 1] := sid]
  }

  /** container_to_service, built group by group in dict order. */
  function ContainerToService(gs: Groups): (m: map<string, string>)
  {
    if gs == [] then map[] else MapIds(ContainerToService(gs[..|gs| - 1]), gs[|gs| - 1].1.containers, gs[|gs| - 1].0)
  }

  /** The index of the last group listing `x`, or -1 when none does. */
  function LastListing(gs: Groups, x: string): (i: int)
    ensures -1 <= i < |gs|
    ensures i >= 0 ==> x in gs[i].1.containers
    ensures forall k :: i < k < |gs| ==> x !in gs[k].1.containers
  {
    if gs == [] then -1
    else if x in gs[|gs| - 1].1.containers then |gs| - 1
    else LastListing(gs[..|gs| - 1], x)
  }

  /** A container id is mapped exactly when some group lists it, and to the id of the last group listing it. */
  lemma {:induction false} ContainerToServiceSound(gs: Groups, x: string)
    ensures x in ContainerToService(gs) <==> LastListing(gs, x) >= 0
    ensures x in ContainerToService(gs) ==> ContainerToService(gs)[x] == gs[LastListing(gs, x)].0
  {
    if gs != [] {
      ContainerToServiceSound(gs[..|gs| - 1], x);
    }
  }

  /** The container with `part_of_service` set when its id maps to a (non-empty) service id. */
  function MarkContainer(c: Container, m: map<string, string>): (r: Container)
    ensures r.(partOfService := c.partOfService) == c
    ensures c.id in m && m[c.id] != "" ==> r.partOfService == Some(m[c.id])
    ensures !(c.id in m && m[c.id] != "") ==> r == c
  {
    if c.id in m && m[c.id] != "" then c.(partOfService := Some(m[c.id])) else c
  }

  /** The two loops that build container_to_service, written out. */
  method BuildContainerToService(gs: Groups) returns (m: map<string, string>)
    ensures m == ContainerToService(gs)
  {
    m := map[];
    var i := 0;
    while i < |gs|
      invariant 0 <= i <= |gs|
      invariant m == ContainerToService(gs[..i])
    {
      assert gs[..i + 1][..i] == gs[..i] && gs[..i + 1][i] == gs[i];
      var ids := gs[i].1.containers;
      ghost var start := m;
      var j := 0;
      while j < |ids|
        invariant 0 <= j <= |ids|
        invariant m == MapIds(start, ids[..j], gs[i].0)
      {
        assert ids[..j + 1][..j] == ids[..j] && ids[..j + 1][j] == ids[j];
        m := m[ids[j] := gs[i].0];
        j := j + 1;
      }
      assert ids[..|ids|] == ids;
      i := i + 1;
    }
    assert gs[..|gs|] == gs;
  }

  /**
   * _update_containers_with_service_id: the containers in order, each one
   * listed by a group marked with the id of the last group listing it.
   */
  method UpdateContainersWithServiceId(cs: seq<Container>, gs: Groups) returns (updated: seq<Container>)
    ensures |updated| == |cs|
    ensures forall i :: 0 <= i < |cs| ==> updated[i] == MarkContainer(cs[i], ContainerToService(gs))
  {
    var m := BuildContainerToService(gs);
    updated := [];
    var i := 0;
    while i < |cs|
      invariant 0 <= i <= |cs|
      invariant |updated| == i
      invariant forall k :: 0 <= k < i ==> updated[k] == MarkContainer(cs[k], m)
    {
      var c := cs[i];
      if c.id in m && m[c.id] != "" {
        c := c.(partOfService := Some(m[c.id]));
      }
      updated := updated + [c];
      i := i + 1;
    }
  }

  /** A service id is never empty, so every container some group lists is marked with the last group listing it. */
  lemma MarkedByItsGroup(c: Container, gs: Groups)
    requires forall i :: 0 <= i < |gs| ==> StartsWith(gs[i].0, "service_")
    ensures LastListing(gs, c.id) >= 0 ==> MarkContainer(c, ContainerToService(gs)).partOfService == Some(gs[LastListing(gs, c.id)].0)
    ensures LastListing(gs, c.id) < 0 ==> MarkContainer(c, ContainerToService(gs)) == c
  {
    ContainerToServiceSound(gs, c.id);
    if LastListing(gs, c.id) >= 0 {
      assert gs[LastListing(gs, c.id)].0[..8] == "service_";
    }
  }

  // -----------------------------------------------------------------------
  // Service status, category and tags

  function StatusOf(c: Container): string {
    if c.status.Some? then c.status.value else "unknown"
  }

  /** The overall status: every container running, some running, or none running. */
  function ServiceStatus(statuses: seq<string>): (r: string)
    ensures r == "running" <==> forall i :: 0 <= i < |statuses| ==> statuses[i] == "running"
    ensures r == "partially_running" <==>
              (exists i :: 0 <= i < |statuses| && statuses[i] == "running") &&
              (exists i :: 0 <= i < |statuses| && statuses[i] != "running")
    ensures r == "stopped" <==> statuses != [] && forall i :: 0 <= i < |statuses| ==> statuses[i] != "running"
  {
    if forall i :: 0 <= i < |statuses| ==> statuses[i] == "running" then
      assert statuses != [] ==> statuses[0] == "running";
      "running"
    else if exists i :: 0 <= i < |statuses| && statuses[i] == "running" then "partially_running"
    else "stopped"
  }

  const Categories: seq<(string, seq<string>)> := [
    ("monitoring", ["prometheus", "grafana", "influx", "telegraf", "loki"]),
    ("database", ["postgres", "mysql", "mariadb", "mongo", "redis"]),
    ("web_server", ["nginx", "apache", "caddy", "traefik"]),
    ("home_automation", ["home-assistant", "homeassistant", "zigbee", "zwave"]),
    ("file_sharing", ["nextcloud", "seafile", "syncthing"]),
    ("media", ["plex", "jellyfin", "emby", "sonarr", "radarr"]),
    ("development", ["gitea", "gitlab", "jenkins", "drone"]),
    ("security", ["fail2ban", "authelia", "authentik"]),
    ("infrastructure", ["portainer", "watchtower", "registry"])
  ]

  /** Some keyword occurs in `s`. */
  predicate MentionsAny(s: string, keywords: seq<string>) {
    exists k :: 0 <= k < |keywords| && Contains(s, keywords[k])
  }

  /** The index of the first category with a keyword in `s`, or -1. */
  function FirstCategory(s: string, cats: seq<(string, seq<string>)>): (i: int)
    ensures -1 <= i < |cats|
    ensures i >= 0 ==> MentionsAny(s, cats[i].1)
    ensures forall j :: 0 <= j < |cats| && (i < 0 || j < i) ==> !MentionsAny(s, cats[j].1)
  {
    if cats == [] then -1
    else if MentionsAny(s, cats[0].1) then 0
    else
      var i := FirstCategory(s, cats[1..]);
      assert forall j :: 1 <= j < |cats| ==> cats[j] == cats[1..][j - 1];
      if i < 0 then -1 else i + 1
  }

  /** _infer_service_category: the first category, in order, one of whose keywords the lower-cased name contains. */
  function InferServiceCategory(name: string): (r: string)
    ensures r == "application" <==> forall j :: 0 <= j < |Categories| ==> !MentionsAny(Lower(name), Categories[j].1)
    ensures r != "application" ==>
              exists i :: (0 <= i < |Categories| && r == Categories[i].0 && MentionsAny(Lower(name), Categories[i].1)
                           && forall j :: 0 <= j < i ==> !MentionsAny(Lower(name), Categories[j].1))
  {
    var i := FirstCategory(Lower(name), Categories);
    if i >= 0 then Categories[i].0 else "application"
  }

  /** No category is called like a size tag. */
  lemma CategoryIsNotSizeTag(name: string)
    ensures InferServiceCategory(name) != "multi-container" && InferServiceCategory(name) != "standalone"
  {
    var r := InferServiceCategory(name);
    if r != "application" {
      var i :| 0 <= i < |Categories| && r == Categories[i].0;
    }
  }

  /**
   * _generate_service_tags, as a set: "service", "docker", the lower-cased
   * name, the category, and "multi-container" or "standalone" by size.
   */
  function ServiceTags(name: string, count: nat): (r: set<string>)
    ensures "service" in r && "docker" in r && Lower(name) in r && InferServiceCategory(name) in r
    ensures "multi-container" in r <==> count > 1 || Lower(name) == "multi-container"
    ensures "standalone" in r <==> count <= 1 || Lower(name) == "standalone"
    ensures |r| <= 5
  {
    CategoryIsNotSizeTag(name);
    var base := {"service", "docker", Lower(name), InferServiceCategory(name)};
    assert |base| <= 4;
    base + {if count > 1 then "multi-container" else "standalone"}
  }

  // -----------------------------------------------------------------------
  // Service documents

  /** The fields of a service document the model builds (the prose content is not modelled). */
  datatype ServiceDoc = ServiceDoc(
    id: string,
    title: string,
    serviceName: string,
    hostedBy: string,
    containerCount: nat,
    containers: seq<string>,
    primaryContainer: string,
    status: string,
    images: set<string>,
    networks: set<string>,
    groupingMethod: string,
    tags: set<string>)

  /** The group's containers that exist, in the group's order. */
  function FoundContainers(cs: seq<Container>, ids: seq<string>): (r: seq<Container>)
    ensures |r| <= |ids|
    ensures forall c :: c in r ==> exists k :: 0 <= k < |ids| && FindContainer(cs, ids[k]) == Some(c)
    ensures forall k :: 0 <= k < |ids| && FindContainer(cs, ids[k]).Some? ==> FindContainer(cs, ids[k]).value in r
  {
    if ids == [] then []
    else
      var rest := FoundContainers(cs, ids[..|ids| - 1]);
      assert forall k :: 0 <= k < |ids| - 1 ==> ids[..|ids| - 1][k] == ids[k];
      match FindContainer(cs, ids[|ids| - 1])
      case Some(c) => rest + [c]
      case None => rest
  }

  /** The index of the first running container from `i` on, or |found| when none runs. */
  function FirstRunningFrom(found: seq<Container>, i: nat): (k: nat)
    requires i <= |found|
    ensures i <= k <= |found|
    ensures k < |found| ==> StatusOf(found[k]) == "running"
    ensures forall j :: i <= j < k ==> StatusOf(found[j]) != "running"
    decreases |found| - i
  {
    if i == |found| || StatusOf(found[i]) == "running" then i else FirstRunningFrom(found, i + 1)
  }

  /** The first running container, or the first container when none runs. */
  function PrimaryContainer(found: seq<Container>): (p: Container)
    requires found != []
    ensures p in found
    ensures (exists i :: 0 <= i < |found| && StatusOf(found[i]) == "running") ==> StatusOf(p) == "running"
    ensures StatusOf(p) == "running" ==> exists i :: (0 <= i < |found| && p == found[i] &&
                                                     forall j :: 0 <= j < i ==> StatusOf(found[j]) != "running")
    ensures StatusOf(p) != "running" ==> p == found[0]
  {
    var k := FirstRunningFrom(found, 0);
    if k < |found| then found[k] else found[0]
  }

  function ImageOr(c: Container): string {
    if c.image.Some? then c.image.value else "unknown"
  }

  function Statuses(found: seq<Container>): (ss: seq<string>)
    ensures |ss| == |found| && forall i :: 0 <= i < |found| ==> ss[i] == StatusOf(found[i])
  {
    seq(|found|, i requires 0 <= i < |found| => StatusOf(found[i]))
  }

  /** The networks of the found containers, gathered container by container. */
  function NetworksOf(found: seq<Container>): (r: set<string>)
    ensures forall n :: n in r <==> exists i :: 0 <= i < |found| && n in found[i].networks
  {
    if found == [] then {}
    else
      var rest := NetworksOf(found[..|found| - 1]);
      assert forall i :: 0 <= i < |found| - 1 ==> found[..|found| - 1][i] == found[i];
      var last := found[|found| - 1].networks;
      rest + set n | n in last
  }

  /**
   * `_generate_service_content` joins the container names of a service with
   * more than one found container; a container without a name puts None in
   * the list and the join raises.
   */
  predicate ContentRaises(found: seq<Container>) {
    |found| > 1 && exists i :: 0 <= i < |found| && found[i].containerName.None?
  }

  /**
   * One service document: None where generating its content raises,
   * Some(None) when none of the group's containers is found (the group is
   * skipped), and the document otherwise.
   */
  function ServiceDocOf(sid: string, g: Group, cs: seq<Container>): (r: Option<Option<ServiceDoc>>)
    ensures r == Some(None) <==> forall k :: 0 <= k < |g.containers| ==> FindContainer(cs, g.containers[k]).None?
    ensures r.None? <==> ContentRaises(FoundContainers(cs, g.containers))
  {
    var found := FoundContainers(cs, g.containers);
    if found == [] then
      assert forall k :: 0 <= k < |g.containers| ==> FindContainer(cs, g.containers[k]).None?;
      Some(None)
    else if ContentRaises(found) then
      assert found[0] in found;
      None
    else
      var primary := PrimaryContainer(found);
      var host := HostOf(primary);
      Some(Some(ServiceDoc(
        sid,
        g.serviceName + " service on " + host,
        g.serviceName,
        host,
        |found|,
        g.containers,
        primary.id,
        ServiceStatus(Statuses(found)),
        set c | c in found :: ImageOr(c),
        NetworksOf(found),
        g.groupingMethod,
        ServiceTags(g.serviceName, |found|))))
  }

  /** A nameless container among two or more found ones makes the document raise; alone it does not. */
  lemma NamelessContainerRaises(sid: string, g: Group, cs: seq<Container>, i: nat, j: nat)
    requires i < |g.containers| && j < |g.containers|
    requires FindContainer(cs, g.containers[i]).Some? && FindContainer(cs, g.containers[j]).Some?
    requires g.containers[i] != g.containers[j]
    requires FindContainer(cs, g.containers[i]).value.containerName.None?
    ensures ServiceDocOf(sid, g, cs).None?
  {
    var found := FoundContainers(cs, g.containers);
    var ci, cj := FindContainer(cs, g.containers[i]).value, FindContainer(cs, g.containers[j]).value;
    assert ci in found && cj in found && ci != cj;
    var a :| 0 <= a < |found| && found[a] == ci;
    var b :| 0 <= b < |found| && found[b] == cj;
    assert a != b;
  }

  /**
   * A service document names its group's service, titles it "{name} service
   * on {host}" with the host of its primary container, which is one of the
   * group's containers, counts the found containers and is tagged as a
   * docker service.
   */
  lemma ServiceDocShape(sid: string, g: Group, cs: seq<Container>)
    requires ServiceDocOf(sid, g, cs).Some? && ServiceDocOf(sid, g, cs).value.Some?
    ensures var d := ServiceDocOf(sid, g, cs).value.value;
            d.id == sid && d.containers == g.containers && d.serviceName == g.serviceName
            && d.title == g.serviceName + " service on " + d.hostedBy
            && 1 <= d.containerCount <= |g.containers| && d.groupingMethod == g.groupingMethod
            && "service" in d.tags && "docker" in d.tags
            && (d.containerCount > 1 ==> "multi-container" in d.tags)
    ensures var d := ServiceDocOf(sid, g, cs).value.value;
            exists k :: (0 <= k < |g.containers| && d.primaryContainer == g.containers[k]
                         && FindContainer(cs, g.containers[k]).Some?
                         && d.hostedBy == HostOf(FindContainer(cs, g.containers[k]).value))
  {
    var found := FoundContainers(cs, g.containers);
    var primary := PrimaryContainer(found);
    assert exists k :: 0 <= k < |g.containers| && FindContainer(cs, g.containers[k]) == Some(primary);
    var k :| 0 <= k < |g.containers| && FindContainer(cs, g.containers[k]) == Some(primary);
    assert primary.id == g.containers[k];
  }

  /**
   * The documents of the drafts, in order: None once a draft raises,
   * skipping the drafts with no document.
   */
  function Collect<T>(xs: seq<Option<Option<T>>>): (r: Option<seq<T>>)
    ensures r.Some? ==> |r.value| <= |xs|
  {
    if xs == [] then Some([])
    else
      match Collect(xs[..|xs| - 1])
      case None => None
      case Some(prev) =>
        match xs[|xs| - 1]
        case None => None
        case Some(None) => Some(prev)
        case Some(Some(d)) => Some(prev + [d])
  }

  lemma CollectSnoc<T>(xs: seq<Option<Option<T>>>, i: nat)
    requires i < |xs|
    ensures Collect(xs[..i + 1]) ==
              if Collect(xs[..i]).None? || xs[i].None? then None
              else if xs[i].value.None? then Collect(xs[..i])
              else Some(Collect(xs[..i]).value + [xs[i].value.value])
  {
    assert xs[..i + 1][..i] == xs[..i] && xs[..i + 1][i] == xs[i];
  }

  lemma {:induction false} CollectFailIff<T>(xs: seq<Option<Option<T>>>)
    ensures Collect(xs).None? <==> None in xs
  {
    if xs != [] {
      CollectFailIff(xs[..|xs| - 1]);
      assert xs == xs[..|xs| - 1] + [xs[|xs| - 1]];
    }
  }

  lemma {:induction false} CollectSound<T>(xs: seq<Option<Option<T>>>)
    requires Collect(xs).Some?
    ensures forall d :: d in Collect(xs).value <==> Some(Some(d)) in xs
  {
    if xs != [] {
      CollectSound(xs[..|xs| - 1]);
      assert xs == xs[..|xs| - 1] + [xs[|xs| - 1]];
    }
  }

  /** What each group gives, in dict order. */
  function Drafts(gs: Groups, cs: seq<Container>): (r: seq<Option<Option<ServiceDoc>>>)
    ensures |r| == |gs| && forall i :: 0 <= i < |gs| ==> r[i] == ServiceDocOf(gs[i].0, gs[i].1, cs)
  {
    seq(|gs|, i requires 0 <= i < |gs| => ServiceDocOf(gs[i].0, gs[i].1, cs))
  }

  /**
   * _generate_service_documents: None once a group's content raises;
   * otherwise one document per group with a found container, in dict order.
   */
  function ServiceDocs(gs: Groups, cs: seq<Container>): (docs: Option<seq<ServiceDoc>>)
    ensures docs.Some? ==> |docs.value| <= |gs|
  {
    Collect(Drafts(gs, cs))
  }

  /** Generating the documents raises exactly when some group's document does. */
  lemma ServiceDocsFailIff(gs: Groups, cs: seq<Container>)
    ensures ServiceDocs(gs, cs).None? <==> exists i :: 0 <= i < |gs| && ServiceDocOf(gs[i].0, gs[i].1, cs).None?
  {
    var xs := Drafts(gs, cs);
    CollectFailIff(xs);
    if None in xs {
      var i :| 0 <= i < |xs| && xs[i] == None;
    }
  }

  /** Every document comes from a group. */
  lemma ServiceDocsSound(gs: Groups, cs: seq<Container>)
    requires ServiceDocs(gs, cs).Some?
    ensures forall d :: d in ServiceDocs(gs, cs).value ==>
              exists i :: 0 <= i < |gs| && ServiceDocOf(gs[i].0, gs[i].1, cs) == Some(Some(d))
  {
    var xs := Drafts(gs, cs);
    CollectSound(xs);
    forall d | d in Collect(xs).value
      ensures exists i :: 0 <= i < |gs| && ServiceDocOf(gs[i].0, gs[i].1, cs) == Some(Some(d))
    {
      var i :| 0 <= i < |xs| && xs[i] == Some(Some(d));
    }
  }

  /** Every group with a found container has its document. */
  lemma ServiceDocsComplete(gs: Groups, cs: seq<Container>, i: nat)
    requires ServiceDocs(gs, cs).Some? && i < |gs|
    requires ServiceDocOf(gs[i].0, gs[i].1, cs).Some? && ServiceDocOf(gs[i].0, gs[i].1, cs).value.Some?
    ensures ServiceDocOf(gs[i].0, gs[i].1, cs).value.value in ServiceDocs(gs, cs).value
  {
    var xs := Drafts(gs, cs);
    CollectSound(xs);
    assert xs[i] in xs;
  }

  /** Documents are only ever lost to a container without a name. */
  lemma NamelessContainerNeeded(gs: Groups, cs: seq<Container>)
    requires ServiceDocs(gs, cs).None?
    ensures exists i :: 0 <= i < |cs| && cs[i].containerName.None?
  {
    ServiceDocsFailIff(gs, cs);
    var i :| 0 <= i < |gs| && ServiceDocOf(gs[i].0, gs[i].1, cs).None?;
    var found := FoundContainers(cs, gs[i].1.containers);
    var k :| 0 <= k < |found| && found[k].containerName.None?;
    assert found[k] in found;
    var m :| 0 <= m < |gs[i].1.containers| && FindContainer(cs, gs[i].1.containers[m]) == Some(found[k]);
    assert found[k] in cs;
    var j :| 0 <= j < |cs| && cs[j] == found[k];
  }

  /** The loop of _generate_service_documents, written out. */
  method GenerateServiceDocuments(gs: Groups, cs: seq<Container>) returns (docs: Option<seq<ServiceDoc>>)
    ensures docs == ServiceDocs(gs, cs)
  {
    ghost var xs := Drafts(gs, cs);
    var acc: seq<ServiceDoc> := [];
    var i := 0;
    while i < |gs|
      invariant 0 <= i <= |gs|
      invariant Collect(xs[..i]) == Some(acc)
    {
      CollectSnoc(xs, i);
      var d := ServiceDocOf(gs[i].0, gs[i].1, cs);
      assert d == xs[i];
      if d.None? {
        CollectFailIff(xs);
        return None;
      }
      if d.value.Some? {
        acc := acc + [d.value.value];
      }
      i := i + 1;
    }
    assert xs[..|gs|] == xs;
    docs := Some(acc);
  }

  // -----------------------------------------------------------------------
  // The whole grouping

  /** The ids of `ids` that are in `s`, each once, in list order: one enumeration of `s`. */
  function OrderIn(ids: seq<string>, s: set<string>): (r: seq<string>)
    ensures NoDuplicates(r) && forall x :: x in r <==> x in ids && x in s
  {
    var d := Dedup(ids);
    Filtered(d, s)
  }

  function Filtered(d: seq<string>, s: set<string>): (r: seq<string>)
    requires NoDuplicates(d)
    ensures NoDuplicates(r) && forall x :: x in r <==> x in d && x in s
  {
    if d == [] then []
    else
      var rest := Filtered(d[..|d| - 1], s);
      var x := d[|d| - 1];
      assert x !in d[..|d| - 1];
      if x in s then rest + [x] else rest
  }

  function Ids(cs: seq<Container>): (r: seq<string>)
    ensures |r| == |cs| && forall i :: 0 <= i < |cs| ==> r[i] == cs[i].id
  {
    seq(|cs|, i requires 0 <= i < |cs| => cs[i].id)
  }

  /** Every service id starts with "service_" and every listed container is one of `ids`. */
  predicate WellFormedGroups(gs: Groups, ids: set<string>) {
    forall p :: p in gs ==> StartsWith(p.0, "service_") && forall j :: 0 <= j < |p.1.containers| ==> p.1.containers[j] in ids
  }

  const GroupingMethods: set<string> :=
    {"explicit_label", "name_prefix", "dependencies", "compose_project", "shared_network", "standalone"}

  /** One of the passes keeps the groups well formed and the ungrouped set within the ids. */
  method KeyPassStep(pass: KeyPass, allowMultiHost: bool, cs: seq<Container>, groups: Groups, ungrouped: set<string>,
                     ghost ids: set<string>)
    returns (groups': Groups, ungrouped': set<string>)
    requires WellFormedGroups(groups, ids) && ungrouped <= ids
    requires forall p :: p in groups ==> p.1.groupingMethod in GroupingMethods
    ensures WellFormedGroups(groups', ids) && ungrouped' <= ungrouped
    ensures forall p :: p in groups' ==> p.1.groupingMethod in GroupingMethods
    ensures (groups', ungrouped') == KeyPassResult(pass, allowMultiHost, cs, groups, ungrouped)
  {
    groups', ungrouped' := GroupByKey(pass, allowMultiHost, cs, groups, ungrouped);
    PassOnlyUngrouped(pass, allowMultiHost, cs, groups, ungrouped);
  }

  /** The dependencies pass keeps the groups well formed. */
  method DependenciesStep(allowMultiHost: bool, cs: seq<Container>, groups: Groups, ungrouped: set<string>,
                          order: seq<string>, ghost ids: set<string>)
    returns (groups': Groups, ungrouped': set<string>)
    requires WellFormedGroups(groups, ids) && ungrouped <= ids && Enumerates(order, ungrouped)
    requires forall p :: p in groups ==> p.1.groupingMethod in GroupingMethods
    ensures WellFormedGroups(groups', ids) && ungrouped' <= ungrouped
    ensures forall p :: p in groups' ==> p.1.groupingMethod in GroupingMethods
  {
    groups', ungrouped' := GroupByDependencies(allowMultiHost, cs, groups, ungrouped, order);
  }

  /** The standalone pass keeps the groups well formed. */
  method StandaloneStep(allowMultiHost: bool, cs: seq<Container>, groups: Groups, ungrouped: set<string>,
                        order: seq<string>, ghost ids: set<string>)
    returns (groups': Groups)
    requires WellFormedGroups(groups, ids) && ungrouped <= ids && Enumerates(order, ungrouped)
    requires forall p :: p in groups ==> p.1.groupingMethod in GroupingMethods
    ensures WellFormedGroups(groups', ids)
    ensures forall p :: p in groups' ==> p.1.groupingMethod in GroupingMethods
  {
    groups' := CreateStandaloneServices(allowMultiHost, cs, groups, ungrouped, order);
  }

  /**
   * group_containers_into_services: the label, name-prefix, dependencies,
   * compose-project and shared-network passes in that order, each over the
   * containers the earlier ones left, then a standalone service for every
   * container left over. Every container keeps its fields but
   * `part_of_service`; a container that gets one is listed by the service
   * document with that id. None where generating a document raises, which
   * takes a container without a name; with every container named it never
   * does.
   */
  method GroupContainersIntoServices(allowMultiHost: bool, cs: seq<Container>)
    returns (r: Option<(seq<Container>, seq<ServiceDoc>)>)
    ensures r.None? ==> exists i :: 0 <= i < |cs| && cs[i].containerName.None?
    ensures (forall i :: 0 <= i < |cs| ==> cs[i].containerName.Some?) ==> r.Some?
    ensures r.Some? ==> |r.value.0| == |cs|
    ensures r.Some? ==> forall i :: 0 <= i < |cs| ==> r.value.0[i].(partOfService := cs[i].partOfService) == cs[i]
    ensures r.Some? ==> forall i :: 0 <= i < |cs| && r.value.0[i] != cs[i] ==>
              exists d :: d in r.value.1 && r.value.0[i].partOfService == Some(d.id) && cs[i].id in d.containers
    ensures r.Some? ==> forall d :: d in r.value.1 ==> d.groupingMethod in GroupingMethods && StartsWith(d.id, "service_")
    ensures r.Some? ==> forall d, j :: d in r.value.1 && 0 <= j < |d.containers| ==> d.containers[j] in Ids(cs)
  {
    var ids := Ids(cs);
    var ungrouped := set x | x in ids;
    ghost var all := ungrouped;
    var groups: Groups := [];
    groups, ungrouped := KeyPassStep(ByLabel, allowMultiHost, cs, groups, ungrouped, all);
    groups, ungrouped := KeyPassStep(ByPrefix, allowMultiHost, cs, groups, ungrouped, all);
    groups, ungrouped := DependenciesStep(allowMultiHost, cs, groups, ungrouped, OrderIn(ids, ungrouped), all);
    groups, ungrouped := KeyPassStep(ByCompose, allowMultiHost, cs, groups, ungrouped, all);
    groups, ungrouped := KeyPassStep(ByNetwork, allowMultiHost, cs, groups, ungrouped, all);
    groups := StandaloneStep(allowMultiHost, cs, groups, ungrouped, OrderIn(ids, ungrouped), all);
    var updated := UpdateContainersWithServiceId(cs, groups);
    var docs := GenerateServiceDocuments(groups, cs);
    if docs.None? {
      NamelessContainerNeeded(groups, cs);
      return None;
    }
    MarkedContainersDocumented(cs, groups, updated, docs.value);
    DocumentsWellFormed(cs, groups, docs.value);
    r := Some((updated, docs.value));
  }

  /** A marked container is listed by the document whose id is its mark. */
  lemma MarkedContainersDocumented(cs: seq<Container>, gs: Groups, updated: seq<Container>, docs: seq<ServiceDoc>)
    requires WellFormedGroups(gs, set x | x in Ids(cs))
    requires |updated| == |cs| && forall i :: 0 <= i < |cs| ==> updated[i] == MarkContainer(cs[i], ContainerToService(gs))
    requires ServiceDocs(gs, cs) == Some(docs)
    ensures forall i :: 0 <= i < |cs| && updated[i] != cs[i] ==>
              exists d :: d in docs && updated[i].partOfService == Some(d.id) && cs[i].id in d.containers
  {
    forall i | 0 <= i < |cs| && updated[i] != cs[i]
      ensures exists d :: d in docs && updated[i].partOfService == Some(d.id) && cs[i].id in d.containers
    {
      MarkedContainerDocumented(cs, gs, docs, i);
    }
  }

  lemma MarkedContainerDocumented(cs: seq<Container>, gs: Groups, docs: seq<ServiceDoc>, i: nat)
    requires WellFormedGroups(gs, set x | x in Ids(cs))
    requires ServiceDocs(gs, cs) == Some(docs)
    requires i < |cs| && MarkContainer(cs[i], ContainerToService(gs)) != cs[i]
    ensures exists d :: (d in docs && MarkContainer(cs[i], ContainerToService(gs)).partOfService == Some(d.id)
                         && cs[i].id in d.containers)
  {
    var c := cs[i];
    assert forall k :: 0 <= k < |gs| ==> gs[k] in gs;
    MarkedByItsGroup(c, gs);
    var l := LastListing(gs, c.id);
    assert FindContainer(cs, c.id).Some?;
    var k :| 0 <= k < |gs[l].1.containers| && gs[l].1.containers[k] == c.id;
    ServiceDocsFailIff(gs, cs);
    assert ServiceDocOf(gs[l].0, gs[l].1, cs).Some?;
    assert ServiceDocOf(gs[l].0, gs[l].1, cs).value.Some?;
    ServiceDocShape(gs[l].0, gs[l].1, cs);
    ServiceDocsComplete(gs, cs, l);
  }

  /** Every document has a known grouping method, a "service_" id and lists only containers of the input. */
  lemma DocumentsWellFormed(cs: seq<Container>, gs: Groups, docs: seq<ServiceDoc>)
    requires WellFormedGroups(gs, set x | x in Ids(cs))
    requires forall p :: p in gs ==> p.1.groupingMethod in GroupingMethods
    requires ServiceDocs(gs, cs) == Some(docs)
    ensures forall d :: d in docs ==> d.groupingMethod in GroupingMethods && StartsWith(d.id, "service_")
    ensures forall d, j :: d in docs && 0 <= j < |d.containers| ==> d.containers[j] in Ids(cs)
  {
    ghost var ids := set x | x in Ids(cs);
    ServiceDocsSound(gs, cs);
    forall d | d in docs ensures d.groupingMethod in GroupingMethods && StartsWith(d.id, "service_") &&
                                 forall j :: 0 <= j < |d.containers| ==> d.containers[j] in Ids(cs)
    {
      var i :| 0 <= i < |gs| && ServiceDocOf(gs[i].0, gs[i].1, cs) == Some(Some(d));
      assert gs[i] in gs;
      DocumentWellFormed(gs[i].0, gs[i].1, cs, ids);
    }
  }

  /** The document of a well-formed group keeps its id, its grouping method and its container ids. */
  lemma DocumentWellFormed(sid: string, g: Group, cs: seq<Container>, ids: set<string>)
    requires ServiceDocOf(sid, g, cs).Some? && ServiceDocOf(sid, g, cs).value.Some?
    requires StartsWith(sid, "service_") && g.groupingMethod in GroupingMethods
    requires forall j :: 0 <= j < |g.containers| ==> g.containers[j] in ids
    requires ids == set x | x in Ids(cs)
    ensures var d := ServiceDocOf(sid, g, cs).value.value;
      && d.groupingMethod in GroupingMethods && StartsWith(d.id, "service_")
      && forall j :: 0 <= j < |d.containers| ==> d.containers[j] in Ids(cs)
  {
    ServiceDocShape(sid, g, cs);
  }

}
