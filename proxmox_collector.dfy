/**
 * The text parsers of ProxmoxSubCollector
 * (src/collectors/sub_collectors/proxmox_sub_collector.py): a guest's
 * `qm config` / `pct config` output, the `pvesm status`, `df -h` and
 * `brctl show` tables, and /etc/pve/storage.cfg.
 */
module ProxmoxCollection {
  import opened Text

  /** `text.strip().split('\n')`. */
  function Lines(text: string): (lines: seq<string>)
    ensures |lines| >= 1
  {
    Split(Strip(text), '\n')
  }

  // -----------------------------------------------------------------------
  // Guest configuration: "key: value" lines

  /** The stripped key and value of a line holding ':', split at the first one. */
  function ConfigEntry(line: string): (r: Option<(string, string)>)
    ensures r.Some? <==> ':' in line
  {
    match SplitOnce(line, ':')
    case (key, Some(value)) => Some((Strip(key), Strip(value)))
    case (_, None) => None
  }

  /** A line is split at its first ':', and both sides are stripped. */
  lemma ConfigEntryOf(before: string, after: string)
    requires ':' !in before
    ensures ConfigEntry(before + ":" + after) == Some((Strip(before), Strip(after)))
  {
    SplitOnceAt(before, ':', after);
  }

  /** The line gives `key` a value. */
  predicate SetsKey(line: string, key: string) {
    ConfigEntry(line).Some? && ConfigEntry(line).value.0 == key
  }

  /** The dict a sequence of optional (key, value) entries builds, later entries overwriting earlier ones. */
  function Assign<T>(xs: seq<T>, entry: T -> Option<(string, string)>): map<string, string> {
    if xs == [] then map[]
    else
      Set(Assign(xs[..|xs| - 1], entry), entry(xs[|xs| - 1]))
  }

  /** The dict after one more entry. */
  function Set(m: map<string, string>, e: Option<(string, string)>): map<string, string> {
    if e.Some? then m[e.value.0 := e.value.1] else m
  }

  lemma AssignStep<T>(xs: seq<T>, entry: T -> Option<(string, string)>, i: nat)
    requires i < |xs|
    ensures Assign(xs[..i + 1], entry) == Set(Assign(xs[..i], entry), entry(xs[i]))
  {
    PrefixStep(xs, i);
  }

  lemma {:induction false} AssignKeys<T>(xs: seq<T>, entry: T -> Option<(string, string)>, key: string)
    ensures key in Assign(xs, entry) <==> exists i :: 0 <= i < |xs| && entry(xs[i]).Some? && entry(xs[i]).value.0 == key
  {
    if xs != [] {
      var init := xs[..|xs| - 1];
      AssignKeys(init, entry, key);
      assert forall i :: 0 <= i < |init| ==> init[i] == xs[i];
    }
  }

  lemma {:induction false} AssignLastWins<T>(xs: seq<T>, entry: T -> Option<(string, string)>, i: nat)
    requires i < |xs| && entry(xs[i]).Some?
    requires forall j :: i < j < |xs| ==> !(entry(xs[j]).Some? && entry(xs[j]).value.0 == entry(xs[i]).value.0)
    ensures entry(xs[i]).value.0 in Assign(xs, entry)
    ensures Assign(xs, entry)[entry(xs[i]).value.0] == entry(xs[i]).value.1
  {
    var init := xs[..|xs| - 1];
    if i < |xs| - 1 {
      assert init[i] == xs[i];
      assert forall j :: i < j < |init| ==> init[j] == xs[j];
      AssignLastWins(init, entry, i);
    }
  }

  /** `_parse_proxmox_config`. */
  method ParseProxmoxConfig(configText: string) returns (config: map<string, string>)
    ensures config == Assign(Lines(configText), ConfigEntry)
  {
    var lines := Lines(configText);
    config := map[];
    for k := 0 to |lines|
      invariant config == Assign(lines[..k], ConfigEntry)
    {
      AssignStep(lines, ConfigEntry, k);
      var entry := ConfigEntry(lines[k]);
      if entry.Some? {
        config := config[entry.value.0 := entry.value.1];
      }
    }
    WholePrefix(lines);
  }

  /** A key is in the config exactly when some line sets it; lines without ':' contribute nothing. */
  lemma ConfigKeys(configText: string, key: string)
    ensures key in Assign(Lines(configText), ConfigEntry)
            <==> exists i :: 0 <= i < |Lines(configText)| && SetsKey(Lines(configText)[i], key)
  {
    AssignKeys(Lines(configText), ConfigEntry, key);
  }

  /** A key keeps the value of the last line that sets it. */
  lemma ConfigLastWins(configText: string, i: nat, key: string, value: string)
    requires i < |Lines(configText)| && ConfigEntry(Lines(configText)[i]) == Some((key, value))
    requires forall j :: i < j < |Lines(configText)| ==> !SetsKey(Lines(configText)[j], key)
    ensures key in Assign(Lines(configText), ConfigEntry)
    ensures Assign(Lines(configText), ConfigEntry)[key] == value
  {
    AssignLastWins(Lines(configText), ConfigEntry, i);
  }

  // -----------------------------------------------------------------------
  // Tables: a header line, then one whitespace-separated row per line

  /** The fields of a line holding text: `line.split()`; None for a blank line, which the parsers skip. */
  function Fields(line: string): (r: Option<seq<string>>)
    ensures r.Some? ==> r.value == Words(line)
    ensures r.None? ==> Words(line) == []
  {
    if Strip(line) != [] then Some(Words(line))
    else
      StripEmptyNoWords(line);
      None
  }

  /** The field lists of at least `width` fields, in order. */
  function Wide<T>(xs: seq<T>, fields: T -> Option<seq<string>>, width: nat): (rows: seq<seq<string>>)
    ensures forall k :: 0 <= k < |rows| ==> |rows[k]| >= width
  {
    if xs == [] then []
    else
      Grow(Wide(xs[..|xs| - 1], fields, width), fields(xs[|xs| - 1]), width)
  }

  /** The rows after one more line. */
  function Grow(rows: seq<seq<string>>, parts: Option<seq<string>>, width: nat): seq<seq<string>> {
    if parts.Some? && |parts.value| >= width then rows + [parts.value] else rows
  }

  lemma WideStep<T>(xs: seq<T>, fields: T -> Option<seq<string>>, width: nat, i: nat)
    requires i < |xs|
    ensures Wide(xs[..i + 1], fields, width) == Grow(Wide(xs[..i], fields, width), fields(xs[i]), width)
  {
    PrefixStep(xs, i);
  }

  lemma {:induction false} WideIff<T>(xs: seq<T>, fields: T -> Option<seq<string>>, width: nat, row: seq<string>)
    ensures row in Wide(xs, fields, width)
            <==> exists i :: 0 <= i < |xs| && fields(xs[i]) == Some(row) && |row| >= width
  {
    if xs != [] {
      var init := xs[..|xs| - 1];
      WideIff(init, fields, width, row);
      assert forall i :: 0 <= i < |init| ==> init[i] == xs[i];
    }
  }

  /** The rows of a table body: the lines with at least `width` fields. */
  function Rows(lines: seq<string>, width: nat): (rows: seq<seq<string>>)
    ensures forall k :: 0 <= k < |rows| ==> |rows[k]| >= width
  {
    Wide(lines, Fields, width)
  }

  /** One more line adds its fields as a row when it holds text and is wide enough, and nothing otherwise. */
  lemma RowsStep(lines: seq<string>, width: nat, k: nat)
    requires k < |lines|
    ensures Rows(lines[..k + 1], width)
            == if Strip(lines[k]) != [] && |Words(lines[k])| >= width then Rows(lines[..k], width) + [Words(lines[k])]
               else Rows(lines[..k], width)
  {
    WideStep(lines, Fields, width, k);
  }

  /** The record of each row, in order. */
  function Records<R>(rows: seq<seq<string>>, record: seq<string> -> R): (r: seq<R>)
    ensures |r| == |rows| && forall k :: 0 <= k < |rows| ==> r[k] == record(rows[k])
  {
    if rows == [] then [] else Records(rows[..|rows| - 1], record) + [record(rows[|rows| - 1])]
  }

  /** One more row adds its record at the end. */
  lemma RecordsSnoc<R>(rows: seq<seq<string>>, row: seq<string>, record: seq<string> -> R)
    ensures Records(rows + [row], record) == Records(rows, record) + [record(row)]
  {
    assert (rows + [row])[..|rows|] == rows;
  }

  /** One more line of a table body adds the record of its fields when it is a row, and nothing otherwise. */
  lemma RecordsStep<R>(lines: seq<string>, width: nat, k: nat, record: seq<string> -> R)
    requires k < |lines|
    ensures Records(Rows(lines[..k + 1], width), record)
            == if Strip(lines[k]) != [] && |Words(lines[k])| >= width
               then Records(Rows(lines[..k], width), record) + [record(Words(lines[k]))]
               else Records(Rows(lines[..k], width), record)
  {
    RowsStep(lines, width, k);
    if Strip(lines[k]) != [] && |Words(lines[k])| >= width {
      RecordsSnoc(Rows(lines[..k], width), Words(lines[k]), record);
    }
  }

  /** A line becomes a row exactly when it has at least `width` fields; blank lines never do. */
  lemma RowsIff(lines: seq<string>, width: nat, row: seq<string>)
    requires width > 0
    ensures row in Rows(lines, width) <==> exists i :: 0 <= i < |lines| && row == Words(lines[i]) && |row| >= width
  {
    WideIff(lines, Fields, width, row);
    if exists i :: 0 <= i < |lines| && row == Words(lines[i]) && |row| >= width {
      var i :| 0 <= i < |lines| && row == Words(lines[i]) && |row| >= width;
      assert Fields(lines[i]) == Some(row);
    }
  }

  /** A line that strips to nothing has no fields. */
  lemma StripEmptyNoWords(s: string)
    requires Strip(s) == []
    ensures Words(s) == []
  {
    var t := TrimLeft(s);
    if t != [] {
      assert TrimRight(t) == [];
      TrimRightBlank(t);
    }
  }

  lemma {:induction false} TrimRightBlank(s: string)
    requires TrimRight(s) == []
    ensures forall k :: 0 <= k < |s| ==> IsSpace(s[k])
    decreases |s|
  {
    if s != [] {
      TrimRightBlank(s[..|s| - 1]);
      assert forall k :: 0 <= k < |s| - 1 ==> s[..|s| - 1][k] == s[k];
    }
  }

  /** The table rows after the header line. */
  function Body(output: string): seq<string> {
    Lines(output)[1..]
  }

  /** The field at `i`; every row the parsers read has it, and '' stands in for the others. */
  function FieldOr(row: seq<string>, i: nat): (f: string)
    ensures i < |row| ==> f == row[i]
  {
    if i < |row| then row[i] else ""
  }

  /** A `pvesm status` row. */
  datatype StorageStatus = StorageStatus(name: string, storageType: string, status: string, total: string,
                                         used: string, available: string, percentUsed: string)

  /** A storage row: the first six fields, and the seventh as the percentage, 'N/A' without one. */
  function StatusRecord(row: seq<string>): (r: StorageStatus)
    ensures |row| >= 6 ==> r.name == row[0] && r.storageType == row[1] && r.status == row[2]
    ensures |row| >= 6 ==> r.total == row[3] && r.used == row[4] && r.available == row[5]
    ensures r.percentUsed == (if |row| > 6 then row[6] else "N/A")
  {
    StorageStatus(FieldOr(row, 0), FieldOr(row, 1), FieldOr(row, 2), FieldOr(row, 3), FieldOr(row, 4),
                  FieldOr(row, 5), if |row| > 6 then row[6] else "N/A")
  }

  /** `_parse_storage_status`: one record per row of at least six fields. */
  method ParseStorageStatus(output: string) returns (storage: seq<StorageStatus>)
    ensures |storage| == |Rows(Body(output), 6)|
    ensures forall k :: 0 <= k < |storage| ==> storage[k] == StatusRecord(Rows(Body(output), 6)[k])
  {
    var lines := Body(output);
    storage := [];
    for k := 0 to |lines|
      invariant storage == Records(Rows(lines[..k], 6), StatusRecord)
    {
      RecordsStep(lines, 6, k, StatusRecord);
      var line := lines[k];
      if Strip(line) != [] {
        var parts := Words(line);
        if |parts| >= 6 {
          storage := storage + [StatusRecord(parts)];
        }
      }
    }
    WholePrefix(lines);
  }

  /** A `df -h` row. */
  datatype DiskUsage = DiskUsage(filesystem: string, size: string, used: string, available: string,
                                 percentUsed: string, mountedOn: string)

  /** A disk row: the first six fields, in order. */
  function DiskRecord(row: seq<string>): (r: DiskUsage)
    ensures |row| >= 6 ==> r.filesystem == row[0] && r.size == row[1] && r.used == row[2]
    ensures |row| >= 6 ==> r.available == row[3] && r.percentUsed == row[4] && r.mountedOn == row[5]
  {
    DiskUsage(FieldOr(row, 0), FieldOr(row, 1), FieldOr(row, 2), FieldOr(row, 3), FieldOr(row, 4), FieldOr(row, 5))
  }

  /** `_parse_disk_usage`: one record per row of at least six fields. */
  method ParseDiskUsage(output: string) returns (disks: seq<DiskUsage>)
    ensures |disks| == |Rows(Body(output), 6)|
    ensures forall k :: 0 <= k < |disks| ==> disks[k] == DiskRecord(Rows(Body(output), 6)[k])
  {
    var lines := Body(output);
    disks := [];
    for k := 0 to |lines|
      invariant disks == Records(Rows(lines[..k], 6), DiskRecord)
    {
      RecordsStep(lines, 6, k, DiskRecord);
      var line := lines[k];
      if Strip(line) != [] {
        var parts := Words(line);
        if |parts| >= 6 {
          disks := disks + [DiskRecord(parts)];
        }
      }
    }
    WholePrefix(lines);
  }

  /** A `brctl show` row. */
  datatype Bridge = Bridge(name: string, bridgeId: string, stpEnabled: string, interfaces: string)

  /** A bridge row: name, id and STP flag, and the fourth field as the interfaces, '' without one. */
  function BridgeRecord(row: seq<string>): (r: Bridge)
    ensures |row| >= 3 ==> r.name == row[0] && r.bridgeId == row[1] && r.stpEnabled == row[2]
    ensures r.interfaces == (if |row| > 3 then row[3] else "")
  {
    Bridge(FieldOr(row, 0), FieldOr(row, 1), FieldOr(row, 2), if |row| > 3 then row[3] else "")
  }

  /** `_parse_bridge_info`: one record per row of at least three fields. */
  method ParseBridgeInfo(output: string) returns (bridges: seq<Bridge>)
    ensures |bridges| == |Rows(Body(output), 3)|
    ensures forall k :: 0 <= k < |bridges| ==> bridges[k] == BridgeRecord(Rows(Body(output), 3)[k])
  {
    var lines := Body(output);
    bridges := [];
    for k := 0 to |lines|
      invariant bridges == Records(Rows(lines[..k], 3), BridgeRecord)
    {
      RecordsStep(lines, 3, k, BridgeRecord);
      var line := lines[k];
      if Strip(line) != [] {
        var parts := Words(line);
        if |parts| >= 3 {
          bridges := bridges + [BridgeRecord(parts)];
        }
      }
    }
    WholePrefix(lines);
  }

  // -----------------------------------------------------------------------
  // storage.cfg

  /** The sections parsed so far and the one parameters go to. */
  datatype CfgState = CfgState(configs: map<string, map<string, string>>, current: Option<string>)

  /** The current section exists, and every section has a type. */
  predicate Valid(st: CfgState) {
    && (st.current.Some? ==> st.current.value in st.configs)
    && forall name :: name in st.configs ==> "type" in st.configs[name]
  }

  /** The (stripped) line opens a dir, lvm or zfs section. */
  predicate OpensSection(line: string) {
    StartsWith(line, "dir:") || StartsWith(line, "lvm:") || StartsWith(line, "zfs:")
  }

  /** A section line's first ':' is its fourth character, after the type. */
  lemma SectionColon(line: string)
    requires OpensSection(line)
    ensures IndexOf(line, ':') == 3 && line[..3] in {"dir", "lvm", "zfs"}
  {
    var head := line[..4];
    assert head == "dir:" || head == "lvm:" || head == "zfs:";
    assert line[3] == head[3] == ':';
    assert line[0] == head[0] != ':' && line[1] == head[1] != ':' && line[2] == head[2] != ':';
    assert line[..3] == head[..3];
    if head == "dir:" {
      assert line[..3] == "dir";
    } else if head == "lvm:" {
      assert line[..3] == "lvm";
    } else {
      assert line[..3] == "zfs";
    }
  }

  /** What a line of storage.cfg is, once stripped. */
  datatype CfgLine =
    | Skipped                                      // blank or a comment
    | Section(storageType: string, name: Option<string>)  // a section line; no name when nothing follows the colon
    | Parameter(key: string, value: string)       // any other line holding ':'
    | Ignored                                      // any other line

  /** A section line: its type before the first ':' and its first word after it, if any. */
  function SectionLine(line: string): (c: CfgLine)
    requires OpensSection(line)
    ensures c.Section? && c.storageType in {"dir", "lvm", "zfs"}
    ensures c.name.Some? ==> c.name.value != [] && ' ' !in c.name.value
  {
    SectionColon(line);
    var (storageType, rest) := SplitOnce(line, ':');
    var names := Words(rest.value);
    Section(storageType, if names == [] then None else Some(names[0]))
  }

  /** The kind of a storage.cfg line, read as the parser reads it. */
  function Classify(raw: string): (c: CfgLine)
    ensures c.Skipped? <==> Strip(raw) == [] || StartsWith(Strip(raw), "#")
    ensures c.Section? <==> !c.Skipped? && OpensSection(Strip(raw))
    ensures c.Section? ==> c.storageType in {"dir", "lvm", "zfs"}
    ensures c.Section? && c.name.Some? ==> c.name.value != [] && ' ' !in c.name.value
    ensures c.Parameter? <==> !c.Skipped? && !c.Section? && ':' in Strip(raw)
    ensures c.Parameter? ==> ConfigEntry(Strip(raw)) == Some((c.key, c.value))
  {
    var line := Strip(raw);
    if line == [] || StartsWith(line, "#") then Skipped
    else if OpensSection(line) then SectionLine(line)
    else if ':' in line then
      var (key, value) := ConfigEntry(line).value;
      Parameter(key, value)
    else Ignored
  }

  /** One line of storage.cfg; None when the line makes the parser raise. */
  function CfgStep(st: CfgState, line: CfgLine): (r: Option<CfgState>)
    requires Valid(st)
    ensures r.Some? ==> Valid(r.value)
  {
    match line
    case Section(storageType, name) =>
      if name.None? then None
      else Some(CfgState(st.configs[name.value := map["type" := storageType]], name))
    case Parameter(key, value) =>
      if st.current.Some? && st.current.value != [] then
        var name := st.current.value;
        Some(CfgState(st.configs[name := st.configs[name][key := value]], st.current))
      else Some(st)
    case _ => Some(st)
  }

  const Start := CfgState(map[], None)

  /** The state after the given lines; None once a line raises. */
  function CfgOf(lines: seq<string>): (r: Option<CfgState>)
    ensures r.Some? ==> Valid(r.value)
  {
    if lines == [] then Some(Start)
    else match CfgOf(lines[..|lines| - 1])
      case None => None
      case Some(st) => CfgStep(st, Classify(lines[|lines| - 1]))
  }

  lemma CfgOfStep(lines: seq<string>, k: nat)
    requires k < |lines|
    ensures CfgOf(lines[..k + 1]) == match CfgOf(lines[..k])
                                    case None => None
                                    case Some(st) => CfgStep(st, Classify(lines[k]))
  {
    PrefixStep(lines, k);
  }

  /** `_parse_storage_config`: the sections of storage.cfg with their parameters; None when it raises. */
  method ParseStorageConfig(configText: string) returns (configs: Option<map<string, map<string, string>>>)
    ensures CfgOf(Split(configText, '\n')).None? ==> configs.None?
    ensures CfgOf(Split(configText, '\n')).Some? ==> configs == Some(CfgOf(Split(configText, '\n')).value.configs)
  {
    var lines := Split(configText, '\n');
    var storageConfigs: map<string, map<string, string>> := map[];
    var currentStorage: Option<string> := None;
    for k := 0 to |lines|
      invariant CfgOf(lines[..k]) == Some(CfgState(storageConfigs, currentStorage))
    {
      var line := Classify(lines[k]);
      CfgOfStep(lines, k);
      match line
      case Section(storageType, name) =>
        if name.None? {
          CfgFails(lines, k + 1);
          return None;
        }
        currentStorage := name;
        storageConfigs := storageConfigs[name.value := map["type" := storageType]];
      case Parameter(key, value) =>
        if currentStorage.Some? && currentStorage.value != [] {
          storageConfigs := storageConfigs[currentStorage.value := storageConfigs[currentStorage.value][key := value]];
        }
      case _ =>
    }
    WholePrefix(lines);
    return Some(storageConfigs);
  }

  /** Once a line raises, the whole parse does. */
  lemma {:induction false} CfgFails(lines: seq<string>, k: nat)
    requires k <= |lines| && CfgOf(lines[..k]).None?
    ensures CfgOf(lines).None?
    decreases |lines| - k
  {
    if k == |lines| {
      assert lines[..k] == lines;
    } else {
      PrefixStep(lines, k);
      CfgFails(lines, k + 1);
    }
  }

  /** Lines before the first section line belong to no section: they are ignored. */
  lemma {:induction false} OrphanLinesIgnored(pre: seq<string>, post: seq<string>)
    requires forall k :: 0 <= k < |pre| ==> !Classify(pre[k]).Section?
    ensures CfgOf(pre) == Some(Start)
    ensures CfgOf(pre + post) == CfgOf(post)
    decreases |post|
  {
    if post == [] {
      assert pre + post == pre;
      NoSectionNoState(pre);
    } else {
      var init := post[..|post| - 1];
      OrphanLinesIgnored(pre, init);
      assert (pre + post)[..|pre + post| - 1] == pre + init;
    }
  }

  lemma {:induction false} NoSectionNoState(lines: seq<string>)
    requires forall k :: 0 <= k < |lines| ==> !Classify(lines[k]).Section?
    ensures CfgOf(lines) == Some(Start)
  {
    if lines != [] {
      var init := lines[..|lines| - 1];
      assert forall k :: 0 <= k < |init| ==> init[k] == lines[k];
      NoSectionNoState(init);
    }
  }

  /** A parameter line changes only the current section, setting its key there. */
  lemma ParameterTouchesCurrentOnly(st: CfgState, key: string, value: string, other: string)
    requires Valid(st) && st.current.Some? && st.current.value != []
    requires other != st.current.value
    ensures CfgStep(st, Parameter(key, value)).Some?
    ensures CfgStep(st, Parameter(key, value)).value.current == st.current
    ensures other in CfgStep(st, Parameter(key, value)).value.configs <==> other in st.configs
    ensures other in st.configs ==> CfgStep(st, Parameter(key, value)).value.configs[other] == st.configs[other]
    ensures CfgStep(st, Parameter(key, value)).value.configs[st.current.value][key] == value
  {
  }
}
