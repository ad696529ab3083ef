/**
 * TemporalDataCleaner (src/utils/rag_utils.py): strips fields whose values
 * change from one collection run to the next (timestamps, states, counters)
 * from collected records, by exact key, by dotted/wildcard rule, and by the
 * configured temporal key patterns.
 */
module TemporalCleaning {
  import opened Text
  import opened Values

  /**
   * A configured temporal pattern. Every configured pattern is either
   * `^literal` or `literal$` with a literal free of regex metacharacters.
   */
  datatype TemporalPattern = KeyPrefix(prefix: string) | KeySuffix(suffix: string)

  /** The patterns of the fallback configuration. */
  const FallbackTemporalPatterns: seq<TemporalPattern> := [
    KeySuffix("_at"), KeySuffix("_timestamp"), KeySuffix("_time"), KeySuffix("_date"),
    KeyPrefix("last_"), KeyPrefix("current_"), KeyPrefix("active_"), KeyPrefix("running_"),
    KeySuffix("_usage"), KeySuffix("_percent"), KeySuffix("_bytes"), KeySuffix("_count")
  ]

  /** What a cleaner removes: the field set for the data type and the temporal patterns. */
  datatype Rules = Rules(fields: set<string>, patterns: seq<TemporalPattern>)

  /**
   * `re.search(pattern, key)`. A `^` anchors at the start; a `$` matches at
   * the end of the key or just before a final newline.
   */
  predicate PatternMatches(p: TemporalPattern, key: string) {
    match p
    case KeyPrefix(x) => StartsWith(key, x)
    case KeySuffix(x) => EndsWith(key, x) || EndsWith(key, x + "\n")
  }

  /**
   * `re.match(pattern.replace('*', '[^.]*'), key)`: a prefix of `key`
   * matches the pattern, where `*` stands for any run of characters other
   * than '.', a '.' for any character other than a newline, and every other
   * character for itself.
   */
  predicate WildcardMatch(pat: string, key: string)
    ensures '*' !in pat && '.' !in pat ==> (WildcardMatch(pat, key) <==> StartsWith(key, pat))
    decreases |pat| + |key|
  {
    if pat == [] then true
    else if pat[0] == '*' then
      WildcardMatch(pat[1..], key) || (key != [] && key[0] != '.' && WildcardMatch(pat, key[1..]))
    else if pat[0] == '.' then
      key != [] && key[0] != '\n' && WildcardMatch(pat[1..], key[1..])
    else
      key != [] && key[0] == pat[0] && WildcardMatch(pat[1..], key[1..])
  }

  /** One step of the rule loop: a wildcard rule, or a dotted rule against a dotted key. */
  predicate RuleMatches(pat: string, key: string) {
    if '*' in pat then WildcardMatch(pat, Lower(key))
    else '.' in pat && '.' in key && StartsWith(Lower(key), Split(pat, '.')[0])
  }

  /** _should_remove_field. */
  predicate ShouldRemoveField(key: string, rules: Rules)
    ensures Lower(key) in rules.fields ==> ShouldRemoveField(key, rules)
    ensures rules.fields == {} && rules.patterns == [] ==> !ShouldRemoveField(key, rules)
  {
    Lower(key) in rules.fields
    || (exists pat :: pat in rules.fields && RuleMatches(pat, key))
    || (exists i :: 0 <= i < |rules.patterns| && PatternMatches(rules.patterns[i], Lower(key)))
  }

  /** _get_removal_fields: the configured fields of the type plus its custom rules. */
  function RemovalFields(configured: set<string>, customRules: map<string, set<string>>, dataType: string): (fs: set<string>)
    ensures configured <= fs
    ensures dataType in customRules ==> customRules[dataType] <= fs
    ensures forall f :: f in fs ==> f in configured || (dataType in customRules && f in customRules[dataType])
  {
    configured + (if dataType in customRules then customRules[dataType] else {})
  }

  /** The fields of a dict whose keys are kept, in their original order. */
  function KeptFields(fs: seq<(string, Value)>, rules: Rules): (kept: seq<(string, Value)>)
    ensures forall p :: p in kept ==> p in fs && !ShouldRemoveField(p.0, rules)
    ensures Keys(kept) == KeptKeys(Keys(fs), rules)
  {
    if fs == [] then []
    else
      var rest := KeptFields(fs[1..], rules);
      assert Keys(fs[1..]) == Keys(fs)[1..];
      if ShouldRemoveField(fs[0].0, rules) then rest else [fs[0]] + rest
  }

  /** The keys a dict keeps: those the rules do not remove, in order. */
  function KeptKeys(ks: seq<string>, rules: Rules): seq<string> {
    if ks == [] then []
    else (if ShouldRemoveField(ks[0], rules) then [] else [ks[0]]) + KeptKeys(ks[1..], rules)
  }

  /** No dict anywhere inside `v` has a key the rules remove. */
  predicate Cleaned(v: Value, rules: Rules) {
    match v
    case Obj(fs) => forall i :: 0 <= i < |fs| ==> !ShouldRemoveField(fs[i].0, rules) && Cleaned(fs[i].1, rules)
    case List(xs) => forall i :: 0 <= i < |xs| ==> Cleaned(xs[i], rules)
    case _ => true
  }

  /** _recursive_clean. */
  function RecursiveClean(v: Value, rules: Rules): (r: Value)
    ensures Cleaned(r, rules)
    ensures v.Obj? ==> r.Obj? && Keys(r.fields) == KeptKeys(Keys(v.fields), rules)
    ensures v.Obj? ==> var kept := KeptFields(v.fields, rules);
              && |r.fields| == |kept|
              && forall i :: 0 <= i < |kept| ==> r.fields[i] == (kept[i].0, RecursiveClean(kept[i].1, rules))
    ensures v.List? ==> r.List? && |r.items| == |v.items|
    ensures !v.Obj? && !v.List? ==> r == v
  {
    match v
    case Obj(fs) =>
      var kept := KeptFields(fs, rules);
      Obj(seq(|kept|, i requires 0 <= i < |kept| => assert kept[i] in fs; (kept[i].0, RecursiveClean(kept[i].1, rules))))
    case List(xs) =>
      List(seq(|xs|, i requires 0 <= i < |xs| => RecursiveClean(xs[i], rules)))
    case _ => v
  }

  /** clean_data: a dict is cleaned with the removal fields of its type; anything else is returned as is. */
  function CleanData(data: Value, dataType: string, configured: set<string>, customRules: map<string, set<string>>,
                     patterns: seq<TemporalPattern>): (r: Value)
    ensures !data.Obj? ==> r == data
    ensures data.Obj? ==> r.Obj? && Cleaned(r, Rules(RemovalFields(configured, customRules, dataType), patterns))
  {
    if data.Obj? then RecursiveClean(data, Rules(RemovalFields(configured, customRules, dataType), patterns))
    else data
  }

  // -----------------------------------------------------------------------
  // Properties

  /** A dict loses a removable key and keeps a clean entry as it is: {a: 1, timestamp: x} becomes {a: 1}. */
  lemma CleanDropsOnlyRemoved(k: string, x: Value, t: string, y: Value, rules: Rules)
    requires !ShouldRemoveField(k, rules) && ShouldRemoveField(t, rules) && Cleaned(x, rules)
    ensures RecursiveClean(Obj([(k, x), (t, y)]), rules) == Obj([(k, x)])
  {
    var fs := [(k, x), (t, y)];
    assert fs[1..][1..] == [];
    assert KeptFields(fs, rules) == [(k, x)];
    CleanedIsFixpoint(x, rules);
  }

  /** Lists are cleaned element by element. */
  lemma CleanListElementwise(xs: seq<Value>, rules: Rules, i: nat)
    requires i < |xs|
    ensures RecursiveClean(List(xs), rules).items[i] == RecursiveClean(xs[i], rules)
  {
  }

  /** A value that is already clean is left unchanged. */
  lemma {:induction false} CleanedIsFixpoint(v: Value, rules: Rules)
    requires Cleaned(v, rules)
    ensures RecursiveClean(v, rules) == v
  {
    match v
    case Obj(fs) =>
      KeptFieldsOfClean(fs, rules);
      var r := RecursiveClean(v, rules);
      forall i | 0 <= i < |fs| ensures r.fields[i] == fs[i] {
        CleanedIsFixpoint(fs[i].1, rules);
      }
    case List(xs) =>
      forall i | 0 <= i < |xs| ensures RecursiveClean(xs[i], rules) == xs[i] {
        CleanedIsFixpoint(xs[i], rules);
      }
    case _ =>
  }

  lemma {:induction false} KeptFieldsOfClean(fs: seq<(string, Value)>, rules: Rules)
    requires forall i :: 0 <= i < |fs| ==> !ShouldRemoveField(fs[i].0, rules)
    ensures KeptFields(fs, rules) == fs
  {
    if fs != [] {
      KeptFieldsOfClean(fs[1..], rules);
    }
  }

  /** Cleaning twice is the same as cleaning once. */
  lemma CleanIdempotent(v: Value, rules: Rules)
    ensures RecursiveClean(RecursiveClean(v, rules), rules) == RecursiveClean(v, rules)
  {
    CleanedIsFixpoint(RecursiveClean(v, rules), rules);
  }

  /** Removal only looks at the lower-cased key. */
  lemma RemovalIsCaseInsensitive(key: string, rules: Rules)
    ensures ShouldRemoveField(key, rules) == ShouldRemoveField(Lower(key), rules)
  {
    LowerIdempotent(key);
    assert ('.' in key) == ('.' in Lower(key)) by {
      if '.' in key {
        var i :| 0 <= i < |key| && key[i] == '.';
        assert Lower(key)[i] == '.';
      }
      if '.' in Lower(key) {
        var i :| 0 <= i < |key| && Lower(key)[i] == '.';
        assert key[i] == '.';
      }
    }
    forall pat | pat in rules.fields ensures RuleMatches(pat, key) == RuleMatches(pat, Lower(key)) {
    }
  }

  /** With the fallback patterns, a key ending in `_at` (such as `created_at`) is removed. */
  lemma TimestampSuffixRemoved(key: string, fields: set<string>)
    requires EndsWith(Lower(key), "_at")
    ensures ShouldRemoveField(key, Rules(fields, FallbackTemporalPatterns))
  {
    assert PatternMatches(FallbackTemporalPatterns[0], Lower(key));
  }

  /** Adding fields never keeps a key that was removed before. */
  lemma RemovalMonotone(key: string, rules: Rules, more: set<string>)
    requires ShouldRemoveField(key, rules)
    ensures ShouldRemoveField(key, Rules(rules.fields + more, rules.patterns))
  {
  }
}
