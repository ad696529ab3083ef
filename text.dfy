/**
 * Python string operations used throughout the model, on `seq<char>`.
 * Whitespace is exactly Python's `str.isspace` set (which is also what
 * `\s` matches in `re` and what `str.split()` splits on); case mapping and
 * decimal digits are ASCII only.
 */
module Text {

  datatype Option<T> = None | Some(value: T)

  // ---------------------------------------------------------------------
  // Characters

  predicate IsSpace(c: char) {
    var n := c as int;
    (9 <= n <= 13) || (28 <= n <= 32) || n == 133 || n == 160 || n == 5760
    || (8192 <= n <= 8202) || n == 8232 || n == 8233 || n == 8239 || n == 8287 || n == 12288
  }

  predicate IsDigit(c: char) { '0' <= c <= '9' }

  /** `\w` restricted to ASCII: letters, digits and underscore. */
  predicate IsWordChar(c: char) {
    ('a' <= c <= 'z') || ('A' <= c <= 'Z') || IsDigit(c) || c == '_'
  }

  function LowerChar(c: char): char {
    if 'A' <= c <= 'Z' then (c as int + 32) as char else c
  }

  // ---------------------------------------------------------------------
  // Case

  /** `str.lower()` on ASCII letters. */
  function Lower(s: string): (r: string)
    ensures |r| == |s|
  {
    seq(|s|, i requires 0 <= i < |s| => LowerChar(s[i]))
  }

  lemma LowerIdempotent(s: string)
    ensures Lower(Lower(s)) == Lower(s)
  {
  }

  lemma LowerAppend(a: string, b: string)
    ensures Lower(a + b) == Lower(a) + Lower(b)
  {
  }

  // ---------------------------------------------------------------------
  // Prefixes, suffixes, substrings

  predicate StartsWith(s: string, p: string) {
    |p| <= |s| && s[..|p|] == p
  }

  predicate EndsWith(s: string, p: string) {
    |p| <= |s| && s[|s| - |p|..] == p
  }

  /** `sub in s`. */
  predicate Contains(s: string, sub: string)
    decreases |s|
  {
    StartsWith(s, sub) || (|s| > 0 && Contains(s[1..], sub))
  }

  lemma {:induction false} ContainsAt(s: string, sub: string, i: nat)
    requires i + |sub| <= |s| && s[i..i + |sub|] == sub
    ensures Contains(s, sub)
    decreases i
  {
    if i > 0 {
      assert s[1..][i - 1..i - 1 + |sub|] == s[i..i + |sub|];
      ContainsAt(s[1..], sub, i - 1);
    }
  }

  lemma {:induction false} ContainsWitness(s: string, sub: string) returns (i: nat)
    requires Contains(s, sub)
    ensures i + |sub| <= |s| && s[i..i + |sub|] == sub
    decreases |s|
  {
    if StartsWith(s, sub) {
      i := 0;
    } else {
      var j := ContainsWitness(s[1..], sub);
      assert s[1..][j..j + |sub|] == s[j + 1..j + 1 + |sub|];
      i := j + 1;
    }
  }

  lemma ContainsEmpty(s: string)
    ensures Contains(s, "")
  {
    assert StartsWith(s, "");
  }

  /** Index of the first `c` in `s`, or `|s|` when there is none. */
  function IndexOf(s: string, c: char): (i: nat)
    ensures i <= |s|
    ensures i < |s| ==> s[i] == c
    ensures forall k :: 0 <= k < i ==> s[k] != c
    ensures i == |s| <==> c !in s
  {
    if s == [] then 0
    else if s[0] == c then 0
    else 1 + IndexOf(s[1..], c)
  }

  /** Index of the last `c` in `s`, or `|s|` when there is none. */
  function LastIndexOf(s: string, c: char): (i: nat)
    ensures i <= |s|
    ensures i < |s| ==> s[i] == c && forall k :: i < k < |s| ==> s[k] != c
    ensures i == |s| <==> c !in s
  {
    if s == [] then 0
    else if s[|s| - 1] == c then |s| - 1
    else if c in s[..|s| - 1] then LastIndexOf(s[..|s| - 1], c)
    else |s|
  }

  // ---------------------------------------------------------------------
  // Splitting and joining

  /** `sep.join(parts)`. */
  function Join(parts: seq<string>, sep: string): string {
    if parts == [] then ""
    else if |parts| == 1 then parts[0]
    else parts[0] + sep + Join(parts[1..], sep)
  }

  /** `s.split(c)` for a one-character separator. */
  function Split(s: string, c: char): (parts: seq<string>)
    ensures |parts| >= 1
    ensures forall k :: 0 <= k < |parts| ==> c !in parts[k]
    ensures c !in s ==> parts == [s]
    decreases |s|
  {
    var i := IndexOf(s, c);
    if i == |s| then [s] else [s[..i]] + Split(s[i + 1..], c)
  }

  /** One step of `Split` at the first separator. */
  lemma SplitUnfold(s: string, c: char)
    requires c in s
    ensures Split(s, c) == [s[..IndexOf(s, c)]] + Split(s[IndexOf(s, c) + 1..], c)
  {
  }

  lemma {:induction false} SplitJoin(s: string, c: char)
    ensures Join(Split(s, c), [c]) == s
    decreases |s|
  {
    if c in s {
      var i := IndexOf(s, c);
      var rest := s[i + 1..];
      assert s == s[..i] + [c] + rest by {
        assert SplitOnce(s, c) == (s[..i], Some(rest));
      }
      SplitJoin(rest, c);
      SplitUnfold(s, c);
      var tail := Split(rest, c);
      assert ([s[..i]] + tail)[1..] == tail;
    }
  }

  /** `s.split(c, 1)`: the text before the first `c` and, when there is one, the text after it. */
  function SplitOnce(s: string, c: char): (r: (string, Option<string>))
    ensures c !in r.0
    ensures r.1.None? <==> c !in s
    ensures r.1.None? ==> r.0 == s
    ensures r.1.Some? ==> s == r.0 + [c] + r.1.value
  {
    var i := IndexOf(s, c);
    if i == |s| then (s, None) else (s[..i], Some(s[i + 1..]))
  }

  /** Splitting at the first `c` recovers the text around it when the text before it has none. */
  lemma SplitOnceAt(a: string, c: char, b: string)
    requires c !in a
    ensures SplitOnce(a + [c] + b, c) == (a, Some(b))
  {
    var s := a + [c] + b;
    assert s[|a|] == c;
    assert forall k :: 0 <= k < |a| ==> s[k] == a[k];
    assert IndexOf(s, c) == |a|;
    assert s[..|a|] == a;
    assert s[|a| + 1..] == b;
  }

  /** The first part of a split is the text before the first separator. */
  lemma SplitFirst(a: string, c: char, b: string)
    requires c !in a
    ensures Split(a + [c] + b, c)[0] == a
  {
    var s := a + [c] + b;
    assert s[|a|] == c;
    assert forall k :: 0 <= k < |a| ==> s[k] == a[k];
    assert IndexOf(s, c) == |a|;
    assert s[..|a|] == a;
  }

  /** The last part of a split is the text after the last separator. */
  lemma {:induction false} LastPartAfter(a: string, c: char, b: string)
    requires c !in b
    ensures LastPart(a + [c] + b, c) == b
    decreases |a|
  {
    var s := a + [c] + b;
    assert s[|a|] == c;
    LastPartSkip(s, c);
    var i := IndexOf(s, c);
    if i == |a| {
      assert s[i + 1..] == b;
    } else {
      assert s[i + 1..] == a[i + 1..] + [c] + b;
      LastPartAfter(a[i + 1..], c, b);
    }
  }

  /** The last part does not change when the text up to the first separator is dropped. */
  lemma LastPartSkip(s: string, c: char)
    requires c in s
    ensures IndexOf(s, c) < |s| && LastPart(s, c) == LastPart(s[IndexOf(s, c) + 1..], c)
  {
    var i := IndexOf(s, c);
    var rest := Split(s[i + 1..], c);
    assert Split(s, c) == [s[..i]] + rest;
    assert Split(s, c)[|Split(s, c)| - 1] == rest[|rest| - 1];
  }

  lemma StripIdempotent(s: string)
    ensures Strip(Strip(s)) == Strip(s)
  {
    var t := Strip(s);
    if t != [] {
      assert TrimLeft(t) == t;
      assert TrimRight(t) == t;
    }
  }

  /** A non-empty text without surrounding whitespace. */
  predicate IsStrippedWord(s: string) {
    s != [] && Strip(s) == s
  }

  /** `[p.strip() for p in parts if p.strip()]` */
  function StrippedNonEmpty(parts: seq<string>): (r: seq<string>)
    ensures forall i :: 0 <= i < |r| ==> IsStrippedWord(r[i])
  {
    if parts == [] then []
    else
      var p := Strip(parts[0]);
      var rest := StrippedNonEmpty(parts[1..]);
      if p != [] then
        assert IsStrippedWord(p) by { StripIdempotent(parts[0]); }
        [p] + rest
      else rest
  }

  /** `s.rsplit(c, 1)` when `c` occurs: the text before the last `c` and the text after it. */
  function RSplitOnce(s: string, c: char): (r: (string, string))
    requires c in s
    ensures s == r.0 + [c] + r.1
    ensures c !in r.1
  {
    var i := LastIndexOf(s, c);
    (s[..i], s[i + 1..])
  }

  /** The last element of `s.split(c)`. */
  function LastPart(s: string, c: char): (r: string)
    ensures c !in r
    ensures c !in s ==> r == s
  {
    var parts := Split(s, c);
    parts[|parts| - 1]
  }

  // ---------------------------------------------------------------------
  // Whitespace

  function TrimLeft(s: string): (r: string)
    ensures |r| <= |s| && r == s[|s| - |r|..]
    ensures r == [] || !IsSpace(r[0])
    decreases |s|
  {
    if s != [] && IsSpace(s[0]) then TrimLeft(s[1..]) else s
  }

  function TrimRight(s: string): (r: string)
    ensures |r| <= |s| && r == s[..|r|]
    ensures r == [] || !IsSpace(r[|r| - 1])
    decreases |s|
  {
    if s != [] && IsSpace(s[|s| - 1]) then TrimRight(s[..|s| - 1]) else s
  }

  /** `str.strip()` with no argument. */
  function Strip(s: string): (r: string)
    ensures r == [] || (!IsSpace(r[0]) && !IsSpace(r[|r| - 1]))
  {
    TrimRight(TrimLeft(s))
  }

  /** Index of the first whitespace character at or after `i`, or `|s|`. */
  function TokenEnd(s: string, i: nat): (k: nat)
    requires i <= |s|
    ensures i <= k <= |s|
    ensures forall j :: i <= j < k ==> !IsSpace(s[j])
    ensures k < |s| ==> IsSpace(s[k])
    decreases |s| - i
  {
    if i == |s| || IsSpace(s[i]) then i else TokenEnd(s, i + 1)
  }

  /** Index of the first non-whitespace character at or after `i`, or `|s|`. */
  function SpaceEnd(s: string, i: nat): (k: nat)
    requires i <= |s|
    ensures i <= k <= |s|
    ensures forall j :: i <= j < k ==> IsSpace(s[j])
    ensures k < |s| ==> !IsSpace(s[k])
    decreases |s| - i
  {
    if i == |s| || !IsSpace(s[i]) then i else SpaceEnd(s, i + 1)
  }

  /** `str.split()` with no argument: the maximal runs of non-whitespace characters. */
  function Words(s: string): (ws: seq<string>)
    ensures forall k :: 0 <= k < |ws| ==> ws[k] != [] && NoSpace(ws[k])
    decreases |s|
  {
    var t := TrimLeft(s);
    if t == [] then []
    else
      var k := TokenEnd(t, 0);
      var rest := Words(t[k..]);
      WordsCons(t, k, rest);
      [t[..k]] + rest
  }

  predicate NoSpace(w: string) {
    forall j :: 0 <= j < |w| ==> !IsSpace(w[j])
  }

  /** A token followed by well-formed words gives well-formed words. */
  lemma WordsCons(t: string, k: nat, rest: seq<string>)
    requires 0 < k <= |t|
    requires forall j :: 0 <= j < k ==> !IsSpace(t[j])
    requires forall i :: 0 <= i < |rest| ==> rest[i] != [] && NoSpace(rest[i])
    ensures forall i :: 0 <= i < |[t[..k]] + rest| ==> ([t[..k]] + rest)[i] != [] && NoSpace(([t[..k]] + rest)[i])
  {
    var ws := [t[..k]] + rest;
    forall i | 0 <= i < |ws| ensures ws[i] != [] && NoSpace(ws[i]) {
      if i > 0 { assert ws[i] == rest[i - 1]; }
    }
  }

  lemma {:induction false} TrimLeftBlank(s: string)
    requires forall k :: 0 <= k < |s| ==> IsSpace(s[k])
    ensures TrimLeft(s) == []
    decreases |s|
  {
    if s != [] {
      TrimLeftBlank(s[1..]);
    }
  }

  lemma WordsOfBlank(s: string)
    requires forall k :: 0 <= k < |s| ==> IsSpace(s[k])
    ensures Words(s) == []
  {
    TrimLeftBlank(s);
  }

  // ---------------------------------------------------------------------
  // Replacement

  /** `s.replace(a, b)` for single characters. */
  function ReplaceChar(s: string, a: char, b: char): (r: string)
    ensures |r| == |s|
    ensures a != b ==> a !in r
  {
    seq(|s|, i requires 0 <= i < |s| => if s[i] == a then b else s[i])
  }

  /** `s.replace(pat, rep)`: every non-overlapping occurrence, scanning left to right. */
  function Replace(s: string, pat: string, rep: string): string
    requires pat != []
    decreases |s|
  {
    if |s| < |pat| then s
    else if StartsWith(s, pat) then rep + Replace(s[|pat|..], pat, rep)
    else [s[0]] + Replace(s[1..], pat, rep)
  }

  lemma {:induction false} ReplaceAbsent(s: string, pat: string, rep: string)
    requires pat != [] && !Contains(s, pat)
    ensures Replace(s, pat, rep) == s
    decreases |s|
  {
    if |s| >= |pat| {
      assert !StartsWith(s, pat);
      ReplaceAbsent(s[1..], pat, rep);
    }
  }

  // ---------------------------------------------------------------------
  // Searching

  /** The literal `lit` occurs in `s` at `i`. */
  predicate At(s: string, i: nat, lit: string) {
    i + |lit| <= |s| && s[i..i + |lit|] == lit
  }

  /** `re.search`: the result at the first position from `i` on where the pattern matches. */
  function Search<T>(s: string, matchAt: (string, nat) -> Option<T>, i: nat): (r: Option<T>)
    ensures r.None? <==> forall k :: i <= k <= |s| ==> matchAt(s, k).None?
    ensures r.Some? ==> exists k :: i <= k <= |s| && matchAt(s, k) == r && forall j :: i <= j < k ==> matchAt(s, j).None?
    decreases |s| + 1 - i
  {
    if i > |s| then None
    else
      match matchAt(s, i)
      case Some(x) => Some(x)
      case None => Search(s, matchAt, i + 1)
  }

  // ---------------------------------------------------------------------
  // Numbers

  predicate AllDigits(s: string) {
    forall k :: 0 <= k < |s| ==> IsDigit(s[k])
  }

  function DigitValue(c: char): nat
    requires IsDigit(c)
  {
    c as int - '0' as int
  }

  /** The value of a string of decimal digits. */
  function DigitsValue(s: string): nat
    requires AllDigits(s)
  {
    if s == [] then 0 else 10 * DigitsValue(s[..|s| - 1]) + DigitValue(s[|s| - 1])
  }

  /** End of the maximal run of digits starting at `i`. */
  function DigitEnd(s: string, i: nat): (k: nat)
    requires i <= |s|
    ensures i <= k <= |s|
    ensures AllDigits(s[i..k])
    ensures k < |s| ==> !IsDigit(s[k])
    decreases |s| - i
  {
    if i == |s| || !IsDigit(s[i]) then i else DigitEnd(s, i + 1)
  }

  /** The digit run from `i` ends at `j` when every character before `j` is a digit and `s[j]` is not. */
  lemma {:induction false} DigitEndAt(s: string, i: nat, j: nat)
    requires i <= j <= |s|
    requires forall k :: i <= k < j ==> IsDigit(s[k])
    requires j == |s| || !IsDigit(s[j])
    ensures DigitEnd(s, i) == j
    decreases j - i
  {
    if i < j {
      DigitEndAt(s, i + 1, j);
    }
  }

  /** `str(n)` for a natural number. */
  function NatToString(n: nat): (r: string)
    ensures r != [] && AllDigits(r)
  {
    if n < 10 then [('0' as int + n) as char]
    else NatToString(n / 10) + [('0' as int + n % 10) as char]
  }

  lemma {:induction false} NatToStringValue(n: nat)
    ensures DigitsValue(NatToString(n)) == n
  {
    var r := NatToString(n);
    if n >= 10 {
      NatToStringValue(n / 10);
      assert r[..|r| - 1] == NatToString(n / 10);
    }
  }

  /** `str(i)` for an integer. */
  function IntToString(i: int): string {
    if i < 0 then "-" + NatToString(-i) else NatToString(i)
  }

  /**
   * `int(s)` for a string: surrounding whitespace, an optional sign and one
   * or more decimal digits; anything else is the ValueError case.
   */
  function ParseInt(s: string): Option<int> {
    var t := Strip(s);
    if t != [] && (t[0] == '-' || t[0] == '+') then
      (if |t| > 1 && AllDigits(t[1..])
       then Some(if t[0] == '-' then 0 - DigitsValue(t[1..]) else DigitsValue(t[1..]) as int)
       else None)
    else if t != [] && AllDigits(t) then Some(DigitsValue(t))
    else None
  }

  lemma ParseIntOfDigits(s: string)
    requires s != [] && AllDigits(s)
    ensures ParseInt(s) == Some(DigitsValue(s))
  {
    assert TrimLeft(s) == s;
    assert TrimRight(s) == s;
  }

  // ---------------------------------------------------------------------
  // Sequences

  /** One more element of `xs` extends its prefix by that element. */
  lemma PrefixStep<T>(xs: seq<T>, i: nat)
    requires i < |xs|
    ensures xs[..i + 1][..i] == xs[..i] && xs[..i + 1] == xs[..i] + [xs[i]]
  {
  }

  /** The prefix of full length is the sequence itself. */
  lemma WholePrefix<T>(xs: seq<T>)
    ensures xs[..|xs|] == xs
  {
  }

  lemma AppendNil<T>(xs: seq<T>)
    ensures xs + [] == xs
  {
  }

  /** Appending one element and dropping it again gives back the prefix. */
  lemma SnocPrefix<T>(xs: seq<T>, x: T)
    ensures (xs + [x])[..|xs|] == xs
  {
  }

  predicate NoDuplicates<T(==)>(xs: seq<T>) {
    forall i, j :: 0 <= i < j < |xs| ==> xs[i] != xs[j]
  }

  /** The elements of `xs`, first occurrences kept, in order. */
  function Dedup<T(==,!new)>(xs: seq<T>): (r: seq<T>)
    ensures NoDuplicates(r)
    ensures forall x :: x in r <==> x in xs
    decreases |xs|
  {
    if xs == [] then []
    else
      var rest := Dedup(xs[..|xs| - 1]);
      if xs[|xs| - 1] in rest then rest else rest + [xs[|xs| - 1]]
  }
}
