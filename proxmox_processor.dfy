/**
 * ProxmoxSubProcessor (src/processors/sub_processors/proxmox_sub_processor.py):
 * one "host" document per VM and per LXC container of a Proxmox section,
 * built from the guest's record and its parsed configuration.
 */
module ProxmoxProcessing {
  import opened Text
  import opened Values

  // -----------------------------------------------------------------------
  // The regular expressions, one hand-written matcher each

  /** `tag=(\d+)` at `i`: the digits after "tag=", as many as there are. */
  function TagAt(s: string, i: nat): (r: Option<string>)
    ensures r.Some? ==> r.value != [] && AllDigits(r.value) && At(s, i, "tag=" + r.value)
  {
    if At(s, i, "tag=") && i + 4 < |s| && IsDigit(s[i + 4]) then
      var v := s[i + 4..DigitEnd(s, i + 4)];
      assert s[i..i + 4 + |v|] == s[i..i + 4] + v;
      Some(v)
    else None
  }

  /** `re.search(r'tag=(\d+)', s).group(1)`, or None when there is no match. */
  function VlanTag(s: string): (r: Option<string>)
    ensures r.Some? ==> r.value != [] && AllDigits(r.value) && exists i :: At(s, i, "tag=" + r.value)
    ensures r.None? <==> forall i :: 0 <= i <= |s| ==> TagAt(s, i).None?
  {
    Search(s, TagAt, 0)
  }

  /** `ip=([^,]+)` at `i`: the text after "ip=" up to the next ',' or the end, when it is not empty. */
  function IpAt(s: string, i: nat): (r: Option<string>)
    ensures r.Some? ==> r.value != [] && ',' !in r.value && At(s, i, "ip=" + r.value)
  {
    if At(s, i, "ip=") && i + 3 < |s| && s[i + 3] != ',' then
      var n := IndexOf(s[i + 3..], ',');
      var v := s[i + 3..][..n];
      assert v == s[i + 3..i + 3 + n];
      assert s[i..i + 3 + |v|] == s[i..i + 3] + v;
      Some(v)
    else None
  }

  /** `re.search(r'ip=([^,]+)', s).group(1)`, or None when there is no match. */
  function IpAddress(s: string): (r: Option<string>)
    ensures r.Some? ==> r.value != [] && ',' !in r.value && exists i :: At(s, i, "ip=" + r.value)
    ensures r.None? <==> forall i :: 0 <= i <= |s| ==> IpAt(s, i).None?
  {
    Search(s, IpAt, 0)
  }

  /** A size: one or more digits and the unit letter G, M or K. */
  predicate IsSize(v: string) {
    |v| >= 2 && AllDigits(v[..|v| - 1]) && v[|v| - 1] in "GMK"
  }

  /**
   * `size=(\d+[GMK])` at `i`: the digits after "size=" and the unit letter
   * after them. The unit is not a digit, so the digits must be the whole run.
   */
  function SizeAt(s: string, i: nat): (r: Option<string>)
    ensures r.Some? ==> IsSize(r.value) && At(s, i, "size=" + r.value)
  {
    if At(s, i, "size=") then
      var j := DigitEnd(s, i + 5);
      if j > i + 5 && j < |s| && s[j] in "GMK" then
        var v := s[i + 5..j + 1];
        assert v[..|v| - 1] == s[i + 5..j];
        assert s[i..i + 5 + |v|] == s[i..i + 5] + v;
        Some(v)
      else None
    else None
  }

  /** `re.search(r'size=(\d+[GMK])', s).group(1)`, or None when there is no match. */
  function StorageSize(s: string): (r: Option<string>)
    ensures r.Some? ==> IsSize(r.value) && exists i :: At(s, i, "size=" + r.value)
    ensures r.None? <==> forall i :: 0 <= i <= |s| ==> SizeAt(s, i).None?
  {
    Search(s, SizeAt, 0)
  }

  /** The first position where a pattern matches decides what `re.search` returns. */
  lemma SearchFirst<T>(s: string, matchAt: (string, nat) -> Option<T>, k: nat)
    requires k <= |s| && matchAt(s, k).Some?
    requires forall j :: 0 <= j < k ==> matchAt(s, j).None?
    ensures Search(s, matchAt, 0) == matchAt(s, k)
  {
    var r := Search(s, matchAt, 0);
    var m :| 0 <= m <= |s| && matchAt(s, m) == r && forall j :: 0 <= j < m ==> matchAt(s, j).None?;
    assert m == k;
  }

  /** "ip=" followed by a comma-free address that ends at a comma or the end of the text, with no match before it. */
  lemma IpAddressFound(s: string, i: nat, ip: string)
    requires At(s, i, "ip=" + ip) && ip != [] && ',' !in ip
    requires i + 3 + |ip| == |s| || s[i + 3 + |ip|] == ','
    requires forall j :: 0 <= j < i ==> IpAt(s, j).None?
    ensures IpAddress(s) == Some(ip)
  {
    assert s[i..i + 3] == "ip=" && s[i + 3..i + 3 + |ip|] == ip by {
      assert s[i..i + 3 + |ip|] == "ip=" + ip;
      assert s[i..i + 3] == s[i..i + 3 + |ip|][..3];
      assert s[i + 3..i + 3 + |ip|] == s[i..i + 3 + |ip|][3..];
    }
    assert s[i + 3] == ip[0];
    var t := s[i + 3..];
    assert t[..|ip|] == ip;
    assert IndexOf(t, ',') == |ip| by {
      assert forall k :: 0 <= k < |ip| ==> t[k] == ip[k];
    }
    assert IpAt(s, i) == Some(ip);
    SearchFirst(s, IpAt, i);
  }

  /** "tag=" followed by a run of digits that nothing else continues, with no match before it. */
  lemma VlanTagFound(s: string, i: nat, tag: string)
    requires At(s, i, "tag=" + tag) && tag != [] && AllDigits(tag)
    requires i + 4 + |tag| == |s| || !IsDigit(s[i + 4 + |tag|])
    requires forall j :: 0 <= j < i ==> TagAt(s, j).None?
    ensures VlanTag(s) == Some(tag)
  {
    assert s[i..i + 4] == "tag=" && s[i + 4..i + 4 + |tag|] == tag by {
      assert s[i..i + 4 + |tag|] == "tag=" + tag;
      assert s[i..i + 4] == s[i..i + 4 + |tag|][..4];
      assert s[i + 4..i + 4 + |tag|] == s[i..i + 4 + |tag|][4..];
    }
    assert forall k :: i + 4 <= k < i + 4 + |tag| ==> s[k] == tag[k - i - 4];
    DigitEndAt(s, i + 4, i + 4 + |tag|);
    assert TagAt(s, i) == Some(tag);
    SearchFirst(s, TagAt, i);
  }

  // -----------------------------------------------------------------------
  // Reading the configuration

  /** What `if x: re.search(pattern, x)` does with a value: skip it, search it, or raise TypeError. */
  datatype Probe = Skipped | Searched(text: string) | Raises

  function ProbeOf(v: Value): (p: Probe)
    ensures p.Searched? <==> v.Str? && v.s != []
    ensures p.Searched? ==> p.text == v.s
    ensures p.Raises? <==> Truthy(v) && !v.Str?
  {
    match v
    case Str(s) => if s == [] then Skipped else Searched(s)
    case Null => Skipped
    case Bool(b) => if b then Raises else Skipped
    case Int(i) => if i != 0 then Raises else Skipped
    case Float(f) => if f != 0.0 then Raises else Skipped
    case List(xs) => if xs != [] then Raises else Skipped
    case Obj(fs) => if fs != [] then Raises else Skipped
  }

  /** The result of the probe `find` on the value: None when it raises, Some(None) when nothing is found. */
  function Find(v: Value, find: string -> Option<string>): (r: Option<Option<string>>)
    ensures r.None? <==> ProbeOf(v).Raises?
    ensures r.Some? && r.value.Some? ==> v.Str? && r.value == find(v.s)
    ensures !Truthy(v) ==> r == Some(None)
  {
    match ProbeOf(v)
    case Skipped => Some(None)
    case Searched(s) => Some(find(s))
    case Raises => None
  }

  /**
   * `features and 'nesting=1' in features`: a substring test on a string,
   * membership in a list, a key test on a dict; any other true value raises
   * TypeError.
   */
  function Nesting(features: Value): (r: Option<bool>)
    ensures features.Str? ==> r == Some(Contains(features.s, "nesting=1"))
    ensures !Truthy(features) ==> r == Some(false)
    ensures r.None? <==> Truthy(features) && !features.Str? && !features.List? && !features.Obj?
  {
    match features
    case Str(s) => Some(Contains(s, "nesting=1"))
    case List(xs) => Some(Str("nesting=1") in xs)
    case Obj(fs) => Some(Has(fs, "nesting=1"))
    case Null => Some(false)
    case Bool(b) => if b then None else Some(false)
    case Int(i) => if i != 0 then None else Some(false)
    case Float(f) => if f != 0.0 then None else Some(false)
  }

  /** A configuration entry whose key starts with "net" and whose value is a string. */
  predicate NetEntry(e: (string, Value)) {
    StartsWith(e.0, "net") && e.1.Str?
  }

  /** The index of the first net entry from `k` on. */
  function FirstNetFrom(config: Dict, k: nat): (r: Option<nat>)
    ensures r.Some? ==> k <= r.value < |config| && NetEntry(config[r.value])
                        && forall j :: k <= j < r.value ==> !NetEntry(config[j])
    ensures r.None? <==> forall j :: k <= j < |config| ==> !NetEntry(config[j])
    decreases |config| - k
  {
    if k >= |config| then None
    else if NetEntry(config[k]) then Some(k)
    else FirstNetFrom(config, k + 1)
  }

  /**
   * The VLAN of a VM: the tag in the value of the first net entry; the scan
   * stops at that entry whether or not it names one.
   */
  function VmVlan(config: Dict): (r: Option<string>)
    ensures r.Some? ==> exists k :: 0 <= k < |config| && NetEntry(config[k]) && (forall j :: 0 <= j < k ==> !NetEntry(config[j]))
                                    && Contains(config[k].1.s, "tag=") && VlanTag(config[k].1.s) == r
    ensures (forall j :: 0 <= j < |config| ==> !NetEntry(config[j])) ==> r.None?
  {
    match FirstNetFrom(config, 0)
    case Some(k) => if Contains(config[k].1.s, "tag=") then VlanTag(config[k].1.s) else None
    case None => None
  }

  /** The VLAN loop of `_create_vm_document`. */
  method ScanVmVlan(config: Dict) returns (vlan: Option<string>)
    ensures vlan == VmVlan(config)
  {
    vlan := None;
    var k := 0;
    while k < |config|
      invariant 0 <= k <= |config|
      invariant FirstNetFrom(config, 0) == FirstNetFrom(config, k)
    {
      var (key, value) := config[k];
      if StartsWith(key, "net") && value.Str? {
        if Contains(value.s, "tag=") {
          var found := VlanTag(value.s);
          if found.Some? {
            vlan := found;
          }
        }
        return;
      }
      k := k + 1;
    }
  }

  /** Only the first net entry counts: whatever follows it, the VLAN is that entry's tag or nothing. */
  lemma FirstNetDecides(before: Dict, key: string, value: string, after: Dict)
    requires forall j :: 0 <= j < |before| ==> !NetEntry(before[j])
    requires StartsWith(key, "net")
    ensures VmVlan(before + [(key, Str(value))] + after) == (if Contains(value, "tag=") then VlanTag(value) else None)
  {
    var config := before + [(key, Str(value))] + after;
    assert NetEntry(config[|before|]);
    assert forall j :: 0 <= j < |before| ==> config[j] == before[j];
    var r := FirstNetFrom(config, 0);
    assert r == Some(|before|);
  }

  // -----------------------------------------------------------------------
  // Documents

  /** A host document's metadata; `memory_gb` (a float) is not part of it. */
  datatype HostMetadata =
    | VmMetadata(systemName: string, hostedBy: string, vmid: Value, name: Value, hostType: string,
                 status: Value, cpuCores: int, memoryMb: int, osType: Value, networkVlan: Option<string>,
                 bootOnStart: bool, lastUpdated: string)
    | LxcMetadata(systemName: string, hostedBy: string, vmid: Value, name: Value, hostType: string,
                  status: Value, cpuCores: int, memoryMb: int, osType: Value, hostname: Value,
                  ipAddress: Option<string>, networkVlan: Option<string>, storageAllocation: Option<string>,
                  bootOnStart: bool, virtualizationFeatures: seq<string>, lastUpdated: string)

  /** A document of type "host". */
  datatype HostDocument = HostDocument(id: string, docType: string, title: string, content: string,
                                       metadata: HostMetadata, tags: seq<string>)

  /** What both builders read the same way from a guest record. */
  datatype Guest = Guest(vmid: Value, status: Value, config: Dict, cores: int, memoryMb: int, osType: Value,
                         onboot: bool)

  /**
   * The common part of both builders; None where Python raises: a record or
   * configuration that is not a dict, or cores or memory that `int()`
   * rejects.
   */
  function GuestOf(data: Value): (g: Option<Guest>)
    ensures g.Some? ==> && data.Obj? && GetObj(data, "configuration") == Obj(g.value.config)
                        && g.value.vmid == GetOr(data, "vmid", Str("unknown"))
                        && g.value.status == GetOr(data, "status", Str("unknown"))
                        && g.value.osType == GetOr(Obj(g.value.config), "ostype", Str("unknown"))
    ensures g.Some? ==> && Some(g.value.cores) == IntOf(GetOr(Obj(g.value.config), "cores", Int(1)))
                        && Some(g.value.memoryMb) == IntOf(GetOr(Obj(g.value.config), "memory", Int(512)))
    ensures g.Some? && !Has(g.value.config, "cores") ==> g.value.cores == 1
    ensures g.Some? && !Has(g.value.config, "memory") ==> g.value.memoryMb == 512
    ensures g.Some? ==> (g.value.onboot <==> Field(g.value.config, "onboot") == Str("1"))
    ensures g.None? <==> || !data.Obj? || !GetObj(data, "configuration").Obj?
                         || IntOf(GetOr(GetObj(data, "configuration"), "cores", Int(1))).None?
                         || IntOf(GetOr(GetObj(data, "configuration"), "memory", Int(512))).None?
  {
    if !data.Obj? then None
    else
      var config := GetObj(data, "configuration");
      if !config.Obj? then None
      else
        var cores := IntOf(GetOr(config, "cores", Int(1)));
        var memory := IntOf(GetOr(config, "memory", Int(512)));
        if cores.None? || memory.None? then None
        else Some(Guest(GetOr(data, "vmid", Str("unknown")), GetOr(data, "status", Str("unknown")), config.fields,
                        cores.value, memory.value, GetOr(config, "ostype", Str("unknown")),
                        Field(config.fields, "onboot") == Str("1")))
  }

  /** 'active' for a running guest, 'inactive' for a stopped one, nothing otherwise. */
  function StatusTags(status: Value): (tags: seq<string>)
    ensures "active" in tags <==> status == Str("running")
    ensures "inactive" in tags <==> status == Str("stopped")
    ensures |tags| <= 1
  {
    if status == Str("running") then ["active"] else if status == Str("stopped") then ["inactive"] else []
  }

  /** `vlan-{n}` for a VLAN. */
  function VlanTags(vlan: Option<string>): (tags: seq<string>)
    ensures vlan.Some? ==> tags == ["vlan-" + vlan.value]
    ensures vlan.None? ==> tags == []
  {
    if vlan.Some? then ["vlan-" + vlan.value] else []
  }

  const VmBaseTags: seq<string> := ["vm", "virtual-machine", "proxmox", "virtualization", "host"]
  const LxcBaseTags: seq<string> := ["lxc", "container", "proxmox", "virtualization", "host"]

  /** A tag that is neither a status tag, nor a VLAN's, nor a feature. */
  predicate PlainTag(t: string) {
    t != "active" && t != "inactive" && t != "nesting" && !StartsWith(t, "vlan-")
  }

  /** A tag that does not name a VLAN, told by a character where it differs from "vlan-". */
  lemma NotVlan(t: string, i: nat)
    requires i < 5 && i < |t| && t[i] != "vlan-"[i]
    ensures !StartsWith(t, "vlan-")
  {
    if |t| >= 5 {
      assert t[..5][i] != "vlan-"[i];
    }
  }

  lemma BaseTagsPlain()
    ensures forall t :: t in VmBaseTags ==> PlainTag(t)
    ensures forall t :: t in LxcBaseTags ==> PlainTag(t)
  {
    NotVlan("vm", 1);
    NotVlan("virtual-machine", 1);
    NotVlan("proxmox", 0);
    NotVlan("virtualization", 1);
    NotVlan("host", 0);
    NotVlan("lxc", 0);
    NotVlan("container", 0);
    assert "proxmox"[0] != "nesting"[0];
  }

  /**
   * The tags of a guest: the five fixed ones of a VM or of an LXC
   * container, then 'active' or 'inactive' by status, then the VLAN's, then
   * the features.
   */
  function GuestTags(lxc: bool, status: Value, vlan: Option<string>, features: seq<string>): (tags: seq<string>)
    requires forall t :: t in features ==> t == "nesting"
    ensures |tags| == 5 + |StatusTags(status)| + |VlanTags(vlan)| + |features|
    ensures tags[..5] == if lxc then LxcBaseTags else VmBaseTags
    ensures "active" in tags <==> status == Str("running")
    ensures "inactive" in tags <==> status == Str("stopped")
    ensures forall t :: t in tags && StartsWith(t, "vlan-") <==> vlan.Some? && t == "vlan-" + vlan.value
    ensures "nesting" in tags <==> "nesting" in features
  {
    var base := if lxc then LxcBaseTags else VmBaseTags;
    BaseTagsPlain();
    NotVlan("active", 0);
    NotVlan("inactive", 0);
    NotVlan("nesting", 0);
    var head := base + StatusTags(status);
    assert forall t :: t in head ==> !StartsWith(t, "vlan-") && t != "nesting";
    var tags := head + VlanTags(vlan) + features;
    assert tags[..5] == base;
    assert vlan.Some? ==> tags[|head|] == "vlan-" + vlan.value && StartsWith("vlan-" + vlan.value, "vlan-");
    tags
  }

  /** The document id of a VM. */
  function VmId(systemName: string, vmid: Value): string {
    "host_" + systemName + "_vm-" + FString(vmid)
  }

  /** The document id of an LXC container. */
  function LxcId(systemName: string, vmid: Value): string {
    "host_" + systemName + "_lxc-" + FString(vmid)
  }

  /** On one system, a VM and an LXC container never share an id, and guests with different ids differ in vmid. */
  lemma HostIdsDistinct(systemName: string, a: Value, b: Value)
    ensures VmId(systemName, a) != LxcId(systemName, b)
    ensures VmId(systemName, a) == VmId(systemName, b) <==> FString(a) == FString(b)
    ensures LxcId(systemName, a) == LxcId(systemName, b) <==> FString(a) == FString(b)
  {
    var n := |"host_" + systemName + "_"|;
    assert VmId(systemName, a)[n] == 'v';
    assert LxcId(systemName, b)[n] == 'l';
    var p := "host_" + systemName + "_vm-";
    assert VmId(systemName, a) == p + FString(a) && VmId(systemName, b) == p + FString(b);
    if VmId(systemName, a) == VmId(systemName, b) {
      assert FString(a) == VmId(systemName, a)[|p|..];
    }
    var q := "host_" + systemName + "_lxc-";
    assert LxcId(systemName, a) == q + FString(a) && LxcId(systemName, b) == q + FString(b);
    if LxcId(systemName, a) == LxcId(systemName, b) {
      assert FString(a) == LxcId(systemName, a)[|q|..];
    }
  }

  /** The sentences shared by both documents up to the memory. */
  function Opening(name: Value, kind: string, vmid: Value, systemName: string, g: Guest, renderGb: int -> string)
    : seq<string>
  {
    [FString(name) + " is " + kind + " " + FString(vmid) + ")",
     "running on " + systemName,
     "with " + IntToString(g.cores) + " CPU cores and " + renderGb(g.memoryMb) + "GB memory."]
  }

  /**
   * `_create_vm_document`, with the VLAN of `ScanVmVlan`; None where Python
   * raises. `renderGb` gives the text of `round(memory_mb / 1024, 1)` and
   * `now` the timestamp.
   */
  function VmDocument(systemName: string, vm: Value, renderGb: int -> string, now: string): (r: Option<HostDocument>)
    ensures r.Some? <==> GuestOf(vm).Some?
    ensures r.Some? ==> var g := GuestOf(vm).value; var m := r.value.metadata;
      && r.value.id == VmId(systemName, g.vmid) && r.value.docType == "host" && m.VmMetadata?
      && m.name == GetOr(vm, "name", Str("vm-" + FString(g.vmid)))
      && r.value.title == "VM: " + FString(m.name) + " on " + systemName
      && m.cpuCores == g.cores && m.memoryMb == g.memoryMb && m.bootOnStart == g.onboot
      && m.networkVlan == VmVlan(g.config)
    ensures r.Some? ==> r.value.tags == GuestTags(false, GuestOf(vm).value.status, r.value.metadata.networkVlan, [])
  {
    match GuestOf(vm)
    case None => None
    case Some(g) =>
      var name := GetOr(vm, "name", Str("vm-" + FString(g.vmid)));
      var vlan := VmVlan(g.config);
      var parts := Opening(name, "a virtual machine (VM", g.vmid, systemName, g, renderGb)
                   + ["OS type: " + FString(g.osType) + ".", "Current status: " + FString(g.status) + "."]
                   + (if vlan.Some? then ["Connected to VLAN " + vlan.value + "."] else [])
                   + (if g.onboot then ["Configured to start automatically on boot."] else []);
      var metadata := VmMetadata(systemName, systemName, g.vmid, name, "vm", g.status, g.cores, g.memoryMb,
                                 g.osType, vlan, g.onboot, now);
      var tags := GuestTags(false, g.status, vlan, []);
      Some(HostDocument(VmId(systemName, g.vmid), "host", "VM: " + FString(name) + " on " + systemName,
                        Join(parts, " "), metadata, tags))
  }

  /** The network, storage and feature settings of an LXC container; None where Python raises. */
  datatype LxcSettings = LxcSettings(ipAddress: Option<string>, networkVlan: Option<string>,
                                     storageAllocation: Option<string>, features: seq<string>)

  function LxcSettingsOf(config: Dict): (r: Option<LxcSettings>)
    ensures r.None? <==> || ProbeOf(GetOr(Obj(config), "net0", Str(""))).Raises?
                         || ProbeOf(GetOr(Obj(config), "rootfs", Str(""))).Raises?
                         || Nesting(GetOr(Obj(config), "features", Str(""))).None?
    ensures r.Some? ==> ("nesting" in r.value.features <==> Nesting(GetOr(Obj(config), "features", Str(""))) == Some(true))
    ensures r.Some? ==> forall t :: t in r.value.features ==> t == "nesting"
  {
    var net0 := GetOr(Obj(config), "net0", Str(""));
    var rootfs := GetOr(Obj(config), "rootfs", Str(""));
    var nesting := Nesting(GetOr(Obj(config), "features", Str("")));
    match (Find(net0, IpAddress), Find(net0, VlanTag), Find(rootfs, StorageSize), nesting)
    case (Some(ip), Some(vlan), Some(size), Some(n)) =>
      Some(LxcSettings(ip, vlan, size, if n then ["nesting"] else []))
    case _ => None
  }

  /**
   * Where the settings come from: the address and the VLAN are searched for
   * in a string `net0`, the size in a string `rootfs`; a missing or falsy
   * entry gives none.
   */
  lemma LxcSettingsSources(config: Dict)
    requires LxcSettingsOf(config).Some?
    ensures var s := LxcSettingsOf(config).value; var net0 := GetOr(Obj(config), "net0", Str(""));
      if net0.Str? then s.ipAddress == IpAddress(net0.s) && s.networkVlan == VlanTag(net0.s)
      else s.ipAddress.None? && s.networkVlan.None?
    ensures var s := LxcSettingsOf(config).value; var rootfs := GetOr(Obj(config), "rootfs", Str(""));
      if rootfs.Str? then s.storageAllocation == StorageSize(rootfs.s) else s.storageAllocation.None?
  {
    var net0 := GetOr(Obj(config), "net0", Str(""));
    var rootfs := GetOr(Obj(config), "rootfs", Str(""));
    assert net0.Str? && net0.s == [] ==> IpAddress(net0.s).None? && VlanTag(net0.s).None?;
    assert rootfs.Str? && rootfs.s == [] ==> StorageSize(rootfs.s).None?;
  }

  /** The sentence on the address, with the VLAN when there is one. */
  function AddressSentence(ip: string, vlan: Option<string>): string {
    "IP address: " + ip + (if vlan.Some? then " on VLAN " + vlan.value else "") + "."
  }

  /** `_create_lxc_document`; None where Python raises. `renderGb` and `now` as for a VM. */
  function LxcDocument(systemName: string, lxc: Value, renderGb: int -> string, now: string): (r: Option<HostDocument>)
    ensures r.Some? <==> GuestOf(lxc).Some? && LxcSettingsOf(GuestOf(lxc).value.config).Some?
    ensures r.Some? ==> var g := GuestOf(lxc).value; var s := LxcSettingsOf(g.config).value; var m := r.value.metadata;
      && r.value.id == LxcId(systemName, g.vmid) && r.value.docType == "host" && m.LxcMetadata?
      && m.name == GetOr(lxc, "name", Str("lxc-" + FString(g.vmid)))
      && m.hostname == GetOr(Obj(g.config), "hostname", m.name)
      && r.value.title == "LXC: " + FString(m.name) + " on " + systemName
      && m.cpuCores == g.cores && m.memoryMb == g.memoryMb && m.bootOnStart == g.onboot
      && m.ipAddress == s.ipAddress && m.networkVlan == s.networkVlan
      && m.storageAllocation == s.storageAllocation && m.virtualizationFeatures == s.features
    ensures r.Some? ==> var g := GuestOf(lxc).value; var s := LxcSettingsOf(g.config).value;
      r.value.tags == GuestTags(true, g.status, s.networkVlan, s.features)
  {
    match GuestOf(lxc)
    case None => None
    case Some(g) =>
      match LxcSettingsOf(g.config)
      case None => None
      case Some(s) =>
        var name := GetOr(lxc, "name", Str("lxc-" + FString(g.vmid)));
        var hostname := GetOr(Obj(g.config), "hostname", name);
        var parts := Opening(name, "an LXC container (LXC", g.vmid, systemName, g, renderGb)
                     + ["Hostname: " + FString(hostname) + ".", "OS type: " + FString(g.osType) + ".",
                        "Current status: " + FString(g.status) + "."]
                     + (if s.ipAddress.Some? then [AddressSentence(s.ipAddress.value, s.networkVlan)] else [])
                     + (if s.storageAllocation.Some? then ["Storage allocation: " + s.storageAllocation.value + "."] else [])
                     + (if g.onboot then ["Configured to start automatically on boot."] else [])
                     + (if s.features != [] then ["Features: " + Join(s.features, ", ") + "."] else []);
        var metadata := LxcMetadata(systemName, systemName, g.vmid, name, "lxc", g.status, g.cores, g.memoryMb,
                                    g.osType, hostname, s.ipAddress, s.networkVlan, s.storageAllocation, g.onboot,
                                    s.features, now);
        var tags := GuestTags(true, g.status, s.networkVlan, s.features);
        Some(HostDocument(LxcId(systemName, g.vmid), "host", "LXC: " + FString(name) + " on " + systemName,
                          Join(parts, " "), metadata, tags))
  }

  // -----------------------------------------------------------------------
  // The section

  /** The builder of VM documents, as `process` applies it. */
  function VmBuilder(systemName: string, renderGb: int -> string, now: string): Value -> Option<HostDocument> {
    vm => VmDocument(systemName, vm, renderGb, now)
  }

  /** The builder of LXC documents, as `process` applies it. */
  function LxcBuilder(systemName: string, renderGb: int -> string, now: string): Value -> Option<HostDocument> {
    lxc => LxcDocument(systemName, lxc, renderGb, now)
  }

  /** Every item built, in order; None when any build raises. */
  function Built<T>(items: seq<Value>, build: Value -> Option<T>): (r: Option<seq<T>>)
    ensures r.Some? ==> |r.value| == |items| && forall k :: 0 <= k < |items| ==> Some(r.value[k]) == build(items[k])
    ensures r.None? <==> exists k :: 0 <= k < |items| && build(items[k]).None?
  {
    if items == [] then Some([])
    else
      match Built(items[..|items| - 1], build)
      case None => None
      case Some(init) =>
        match build(items[|items| - 1])
        case None => None
        case Some(last) => Some(init + [last])
  }

  /**
   * One loop of `process`: build a document per item, in order; None as soon
   * as a build raises.
   */
  method BuildAll(items: seq<Value>, build: Value -> Option<HostDocument>) returns (docs: Option<seq<HostDocument>>)
    ensures docs == Built(items, build)
  {
    var built: seq<HostDocument> := [];
    for k := 0 to |items|
      invariant Built(items[..k], build) == Some(built)
    {
      assert items[..k + 1][..k] == items[..k];
      var doc := build(items[k]);
      if doc.None? {
        assert items[..k + 1][k] == items[k];
        assert Built(items[..k + 1], build).None?;
        BuiltFails(items, build, k + 1);
        return None;
      }
      built := built + [doc.value];
    }
    assert items[..|items|] == items;
    return Some(built);
  }

  /** A build that raises on a prefix raises on the whole list. */
  lemma {:induction false} BuiltFails<T>(items: seq<Value>, build: Value -> Option<T>, k: nat)
    requires k <= |items| && Built(items[..k], build).None?
    ensures Built(items, build).None?
    decreases |items| - k
  {
    if k < |items| {
      assert items[..k + 1][..k] == items[..k];
      BuiltFails(items, build, k + 1);
    } else {
      assert items[..k] == items;
    }
  }

  /**
   * `process`, given the two builders: a section that is not a dict yields
   * no documents; otherwise the VMs' documents, then the LXC containers'.
   * None where Python raises.
   */
  function GuestDocuments<T>(section: Value, vm: Value -> Option<T>, lxc: Value -> Option<T>): Option<seq<T>> {
    if !section.Obj? then Some([])
    else
      match Iterate(GetOr(section, "vms", List([])))
      case None => None
      case Some(vms) =>
        match Built(vms, vm)
        case None => None
        case Some(vmDocs) =>
          match Iterate(GetOr(section, "lxc_containers", List([])))
          case None => None
          case Some(lxcs) =>
            match Built(lxcs, lxc)
            case None => None
            case Some(lxcDocs) => Some(vmDocs + lxcDocs)
  }

  /** The loops of `process`, one per kind of guest. */
  method Process(systemName: string, section: Value, renderGb: int -> string, now: string)
    returns (documents: Option<seq<HostDocument>>)
    ensures documents == GuestDocuments(section, VmBuilder(systemName, renderGb, now), LxcBuilder(systemName, renderGb, now))
  {
    if !section.Obj? {
      return Some([]);
    }
    var vms := Iterate(GetOr(section, "vms", List([])));
    if vms.None? {
      return None;
    }
    var vmDocs := BuildAll(vms.value, VmBuilder(systemName, renderGb, now));
    if vmDocs.None? {
      return None;
    }
    var lxcs := Iterate(GetOr(section, "lxc_containers", List([])));
    if lxcs.None? {
      return None;
    }
    var lxcDocs := BuildAll(lxcs.value, LxcBuilder(systemName, renderGb, now));
    if lxcDocs.None? {
      return None;
    }
    return Some(vmDocs.value + lxcDocs.value);
  }

  lemma Concat<T>(a: seq<T>, b: seq<T>)
    ensures |a + b| == |a| + |b|
    ensures forall k :: 0 <= k < |a| ==> (a + b)[k] == a[k]
    ensures forall k :: 0 <= k < |b| ==> (a + b)[|a| + k] == b[k]
  {
  }

  /**
   * The documents of a section: a non-dict gives none; otherwise one per VM,
   * in order, then one per LXC container; the section raises exactly when a
   * list cannot be iterated or a guest's document cannot be built.
   */
  lemma DocumentsInOrder<T>(section: Value, vm: Value -> Option<T>, lxc: Value -> Option<T>)
    ensures var r := GuestDocuments(section, vm, lxc); !section.Obj? ==> r == Some([])
    ensures var r := GuestDocuments(section, vm, lxc);
            var vms := Iterate(GetOr(section, "vms", List([])));
            var lxcs := Iterate(GetOr(section, "lxc_containers", List([])));
            section.Obj? && r.Some? ==>
              && vms.Some? && lxcs.Some? && |r.value| == |vms.value| + |lxcs.value|
              && (forall k :: 0 <= k < |vms.value| ==> Some(r.value[k]) == vm(vms.value[k]))
              && (forall k :: 0 <= k < |lxcs.value| ==> Some(r.value[|vms.value| + k]) == lxc(lxcs.value[k]))
    ensures var r := GuestDocuments(section, vm, lxc);
            var vms := Iterate(GetOr(section, "vms", List([])));
            var lxcs := Iterate(GetOr(section, "lxc_containers", List([])));
            section.Obj? ==>
              (r.None? <==> || vms.None? || (exists k :: 0 <= k < |vms.value| && vm(vms.value[k]).None?)
                            || lxcs.None? || (exists k :: 0 <= k < |lxcs.value| && lxc(lxcs.value[k]).None?))
  {
    var r := GuestDocuments(section, vm, lxc);
    if section.Obj? && r.Some? {
      var vms := Iterate(GetOr(section, "vms", List([]))).value;
      var lxcs := Iterate(GetOr(section, "lxc_containers", List([]))).value;
      Concat(Built(vms, vm).value, Built(lxcs, lxc).value);
    }
  }
}
