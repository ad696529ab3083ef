/**
 * Loosely typed data as the Python code sees it after `json.load` or
 * `yaml.safe_load`: None, booleans, numbers, strings, lists and dicts.
 * A dict is an association list so that its insertion order (which Python
 * preserves and the code relies on) is part of the value.
 */
module Values {
  import opened Text

  datatype Value =
    | Null
    | Bool(b: bool)
    | Int(i: int)
    | Float(f: real)
    | Str(s: string)
    | List(items: seq<Value>)
    | Obj(fields: seq<(string, Value)>)

  /** Python truthiness: None, False, 0, 0.0, "", [] and {} are false. */
  predicate Truthy(v: Value) {
    match v
    case Null => false
    case Bool(b) => b
    case Int(i) => i != 0
    case Float(f) => f != 0.0
    case Str(s) => s != []
    case List(xs) => xs != []
    case Obj(fs) => fs != []
  }

  function Keys(fs: seq<(string, Value)>): (ks: seq<string>)
    ensures |ks| == |fs|
    ensures forall i :: 0 <= i < |fs| ==> ks[i] == fs[i].0
  {
    if fs == [] then [] else [fs[0].0] + Keys(fs[1..])
  }

  /** The keys of a dict are distinct. */
  predicate UniqueKeys(fs: seq<(string, Value)>) {
    forall i, j :: 0 <= i < j < |fs| ==> fs[i].0 != fs[j].0
  }

  /** `d.get(key)` on a dict given as its field list. */
  function Lookup(fs: seq<(string, Value)>, key: string): Option<Value> {
    if fs == [] then None
    else if fs[0].0 == key then Some(fs[0].1)
    else Lookup(fs[1..], key)
  }

  /** A lookup fails exactly on a missing key, and finds an entry of the dict. */
  lemma {:induction false} LookupFound(fs: seq<(string, Value)>, key: string)
    ensures Lookup(fs, key).None? <==> key !in Keys(fs)
    ensures Lookup(fs, key).Some? ==> (key, Lookup(fs, key).value) in fs
  {
    if fs != [] {
      LookupFound(fs[1..], key);
      assert Keys(fs) == [fs[0].0] + Keys(fs[1..]);
    }
  }

  /** A JSON object: a document or a relationship. */
  type Dict = seq<(string, Value)>

  /** `d.get(key)` on a dict, None when the key is absent. */
  function Field(d: Dict, key: string): Value {
    match Lookup(d, key)
    case Some(v) => v
    case None => Null
  }

  /** `key in d`. */
  predicate Has(d: Dict, key: string) {
    Lookup(d, key).Some?
  }

  /** `d.get(key)` where `d` may be any value; a non-dict has no keys. */
  function Get(v: Value, key: string): Option<Value> {
    if v.Obj? then Lookup(v.fields, key) else None
  }

  /** `d.get(key, default)`: a key that is present yields its value, even when that value is None. */
  function GetOr(v: Value, key: string, default: Value): Value {
    match Get(v, key)
    case Some(x) => x
    case None => default
  }

  /** A dict field, or the empty dict: `d.get(key, {})`. */
  function GetObj(v: Value, key: string): Value {
    GetOr(v, key, Obj([]))
  }

  /** A string-valued field. */
  function GetStr(v: Value, key: string): Option<string> {
    match Get(v, key)
    case Some(Str(s)) => Some(s)
    case _ => None
  }

  /** `d[key] = x` on an insertion-ordered dict: an existing key keeps its place. */
  function Put(fs: seq<(string, Value)>, key: string, x: Value): (r: seq<(string, Value)>)
    ensures Lookup(r, key) == Some(x)
  {
    if fs == [] then [(key, x)]
    else if fs[0].0 == key then [(key, x)] + fs[1..]
    else [fs[0]] + Put(fs[1..], key, x)
  }

  /** An existing key keeps its position; a new key goes last. */
  lemma {:induction false} PutKeys(fs: seq<(string, Value)>, key: string, x: Value)
    ensures key in Keys(fs) ==> Keys(Put(fs, key, x)) == Keys(fs)
    ensures key !in Keys(fs) ==> Keys(Put(fs, key, x)) == Keys(fs) + [key]
  {
    if fs != [] && fs[0].0 != key {
      PutKeys(fs[1..], key, x);
    }
  }

  /** Assigning one key leaves every other key's value alone. */
  lemma {:induction false} PutOther(fs: seq<(string, Value)>, key: string, x: Value, k: string)
    requires k != key
    ensures Lookup(Put(fs, key, x), k) == Lookup(fs, k)
  {
    if fs != [] && fs[0].0 != key {
      PutOther(fs[1..], key, x, k);
    }
  }

  /** Python's `type(v).__name__`. */
  function TypeName(v: Value): string {
    match v
    case Null => "NoneType"
    case Bool(_) => "bool"
    case Int(_) => "int"
    case Float(_) => "float"
    case Str(_) => "str"
    case List(_) => "list"
    case Obj(_) => "dict"
  }

  /** `len(v)` for the values that have one (str, list, dict); the others raise TypeError. */
  function Len(v: Value): Option<nat> {
    match v
    case Str(s) => Some(|s|)
    case List(xs) => Some(|xs|)
    case Obj(fs) => Some(|fs|)
    case _ => None
  }
  function StrList(ss: seq<string>): (vs: seq<Value>)
    ensures |vs| == |ss| && forall i :: 0 <= i < |ss| ==> vs[i] == Str(ss[i])
  {
    if ss == [] then [] else [Str(ss[0])] + StrList(ss[1..])
  }

  lemma StrListAppend(a: seq<string>, b: seq<string>)
    ensures StrList(a + b) == StrList(a) + StrList(b)
  {
    var l, r := StrList(a + b), StrList(a) + StrList(b);
    assert |l| == |r|;
    forall i | 0 <= i < |l|
      ensures l[i] == r[i]
    {
      if i < |a| {
        assert r[i] == StrList(a)[i] == Str(a[i]) == Str((a + b)[i]);
      } else {
        assert r[i] == StrList(b)[i - |a|] == Str(b[i - |a|]) == Str((a + b)[i]);
      }
    }
  }

  /** Python iteration over a value (a list's items, a string's characters, a dict's keys); None for the non-iterables. */
  function Iterate(v: Value): Option<seq<Value>> {
    match v
    case List(xs) => Some(xs)
    case Str(s) => Some(seq(|s|, i requires 0 <= i < |s| => Str([s[i]])))
    case Obj(fs) => Some(StrList(Keys(fs)))
    case _ => None
  }

  /**
   * Python's `str()` of a scalar as an f-string shows it. Floats, lists and
   * dicts are not given a textual form here, so they yield None.
   */
  function Show(v: Value): (r: Option<string>)
    ensures v.Str? ==> r == Some(v.s)
  {
    match v
    case Null => Some("None")
    case Bool(b) => Some(if b then "True" else "False")
    case Int(i) => Some(IntToString(i))
    case Str(s) => Some(s)
    case _ => None
  }

  /** A value as an f-string renders it; floats, lists and dicts, which have no textual form here, render as "". */
  function FString(v: Value): (r: string)
    ensures v.Str? ==> r == v.s
  {
    match Show(v)
    case Some(s) => s
    case None => ""
  }

  /** `int(v)`: a string is parsed, a float truncated toward zero; None where it raises. */
  function IntOf(v: Value): Option<int> {
    match v
    case Str(s) => ParseInt(s)
    case Int(i) => Some(i)
    case Bool(b) => Some(if b then 1 else 0)
    case Float(f) => Some(if f >= 0.0 then f.Floor else -((-f).Floor))
    case _ => None
  }
}
