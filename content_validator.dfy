/**
 * ContentValidator (src/utils/content_validator.py): word counting and the
 * length checks a RAG document's content must pass, one document at a time
 * and over a batch.
 */
module ContentValidation {
  import opened Text
  import opened Values

  /** A reason a document fails validation; each is one logged warning or error. */
  datatype Problem =
    | NotADict
    | EmptyOrNotString
    | TooShort(length: nat, minimum: int)
    | TooManyWords(count: nat, maximum: int)

  /** Whether content passed, with the problems reported on the way. */
  datatype Verdict = Verdict(valid: bool, problems: seq<Problem>)

  /** A validator's limits: `ContentValidator(max_word_count, min_content_length)`. */
  datatype ContentValidator = ContentValidator(maxWordCount: int, minContentLength: int)

  /** The limits a validator gets by default. */
  const DefaultValidator := ContentValidator(400, 10)

  /** The counts a batch validation reports. */
  datatype BatchStats = BatchStats(totalDocuments: nat, validDocuments: nat, invalidDocuments: nat, validationRate: real)

  /** Every character of `s` is whitespace. */
  predicate Blank(s: string) {
    forall k :: 0 <= k < |s| ==> IsSpace(s[k])
  }

  lemma {:induction false} TrimLeftEmptyBlank(s: string)
    requires TrimLeft(s) == []
    ensures Blank(s)
    decreases |s|
  {
    if s != [] {
      assert IsSpace(s[0]);
      TrimLeftEmptyBlank(s[1..]);
      forall k | 1 <= k < |s| ensures IsSpace(s[k]) {
        assert s[k] == s[1..][k - 1];
      }
    }
  }

  lemma {:induction false} TrimRightEmptyBlank(s: string)
    requires TrimRight(s) == []
    ensures Blank(s)
    decreases |s|
  {
    if s != [] {
      TrimRightEmptyBlank(s[..|s| - 1]);
      assert forall k :: 0 <= k < |s| - 1 ==> s[..|s| - 1][k] == s[k];
    }
  }

  /** A text strips to nothing exactly when it is all whitespace. */
  lemma StripEmptyIffBlank(s: string)
    ensures Strip(s) == [] <==> Blank(s)
  {
    if Blank(s) {
      TrimLeftBlank(s);
    } else if Strip(s) == [] {
      var t := TrimLeft(s);
      TrimRightEmptyBlank(t);
      if t == [] {
        TrimLeftEmptyBlank(s);
      }
    }
  }

  /** A text with no whitespace at either end splits into no words only when it is empty. */
  lemma WordsOfStripped(t: string)
    requires t == [] || !IsSpace(t[0])
    ensures Words(t) == [] <==> t == []
  {
    if t != [] {
      assert TrimLeft(t) == t;
    }
  }

  /** `content.strip()` for a string, the text the checks measure. */
  function Stripped(content: Value): string {
    if content.Str? then Strip(content.s) else []
  }

  /** `count_words`: 0 for an empty or non-string value, else the number of whitespace-separated words. */
  function CountWords(text: Value): (n: nat)
    ensures text.Str? ==> n == |Words(Strip(text.s))|
  {
    if !text.Str? || text.s == [] then 0
    else |Words(Strip(text.s))|
  }

  /** Only a non-string or an all-whitespace text has no words. */
  lemma CountWordsZero(text: Value)
    ensures CountWords(text) == 0 <==> !text.Str? || Blank(text.s)
  {
    if text.Str? {
      StripEmptyIffBlank(text.s);
      WordsOfStripped(Strip(text.s));
    }
  }

  /**
   * `validate_content_length`: an empty or non-string content fails
   * alone; otherwise a stripped length under the minimum and a word count
   * over the maximum each add a problem, and the content is valid when
   * neither does.
   */
  function ValidateContentLength(v: ContentValidator, content: Value): (r: Verdict)
    ensures r.valid <==> r.problems == []
    ensures r.valid <==> && content.Str? && content.s != []
                         && |Stripped(content)| >= v.minContentLength
                         && CountWords(content) <= v.maxWordCount
    ensures !(content.Str? && content.s != []) ==> r.problems == [EmptyOrNotString]
    ensures content.Str? && content.s != [] ==>
              (TooShort(|Stripped(content)|, v.minContentLength) in r.problems <==> |Stripped(content)| < v.minContentLength)
              && (TooManyWords(CountWords(content), v.maxWordCount) in r.problems <==> CountWords(content) > v.maxWordCount)
              && |r.problems| <= 2
  {
    if !content.Str? || content.s == [] then Verdict(false, [EmptyOrNotString])
    else
      var length := |Strip(content.s)|;
      var words := CountWords(content);
      var short := if length < v.minContentLength then [TooShort(length, v.minContentLength)] else [];
      var long := if words > v.maxWordCount then [TooManyWords(words, v.maxWordCount)] else [];
      Verdict(short + long == [], short + long)
  }

  /** `validate_document`: a non-dict fails; otherwise its 'content' (default "") is checked. */
  function ValidateDocument(v: ContentValidator, document: Value): (r: Verdict)
    ensures !document.Obj? ==> r == Verdict(false, [NotADict])
    ensures document.Obj? ==> r == ValidateContentLength(v, GetOr(document, "content", Str("")))
    ensures document.Obj? && !Has(document.fields, "content") ==> r == Verdict(false, [EmptyOrNotString])
  {
    if !document.Obj? then Verdict(false, [NotADict])
    else ValidateContentLength(v, GetOr(document, "content", Str("")))
  }

  /** The number of elements of `xs` that satisfy `p`. */
  function Count<T>(xs: seq<T>, p: T -> bool): (n: nat)
    ensures n <= |xs|
  {
    if xs == [] then 0
    else Count(xs[..|xs| - 1], p) + (if p(xs[|xs| - 1]) then 1 else 0)
  }

  /** Every element satisfies `p` exactly when all of them are counted. */
  lemma {:induction false} CountAll<T>(xs: seq<T>, p: T -> bool)
    ensures Count(xs, p) == |xs| <==> forall k :: 0 <= k < |xs| ==> p(xs[k])
  {
    if xs != [] {
      var init := xs[..|xs| - 1];
      CountAll(init, p);
      assert forall k :: 0 <= k < |init| ==> init[k] == xs[k];
    }
  }

  /** Whether a document passes. */
  function Passes(v: ContentValidator): Value -> bool {
    d => ValidateDocument(v, d).valid
  }

  /**
   * `validate_document_batch`: counts the documents that pass and those
   * that fail; an empty batch has rate 1, otherwise the rate is the share
   * that pass.
   */
  method ValidateDocumentBatch(v: ContentValidator, documents: seq<Value>) returns (stats: BatchStats)
    ensures stats.totalDocuments == |documents|
    ensures stats.validDocuments == Count(documents, Passes(v))
    ensures stats.validDocuments + stats.invalidDocuments == stats.totalDocuments
    ensures documents == [] ==> stats.validationRate == 1.0
    ensures documents != [] ==> stats.validationRate == stats.validDocuments as real / |documents| as real
  {
    if documents == [] {
      return BatchStats(0, 0, 0, 1.0);
    }
    var total := |documents|;
    var valid := 0;
    var invalid := 0;
    for k := 0 to total
      invariant valid == Count(documents[..k], Passes(v))
      invariant valid + invalid == k
    {
      assert documents[..k + 1][..k] == documents[..k];
      if Passes(v)(documents[k]) {
        valid := valid + 1;
      } else {
        invalid := invalid + 1;
      }
    }
    assert documents[..total] == documents;
    var rate := if total > 0 then valid as real / total as real else 1.0;
    return BatchStats(total, valid, invalid, rate);
  }

  /** The rate lies between 0 and 1, and is 1 exactly when every element is counted. */
  lemma RateBounds<T>(xs: seq<T>, p: T -> bool)
    requires xs != []
    ensures 0.0 <= Count(xs, p) as real / |xs| as real <= 1.0
    ensures Count(xs, p) as real / |xs| as real == 1.0 <==> forall k :: 0 <= k < |xs| ==> p(xs[k])
  {
    CountAll(xs, p);
    Share(Count(xs, p) as real, |xs| as real);
  }

  lemma Share(c: real, n: real)
    requires 0.0 <= c <= n && n > 0.0
    ensures 0.0 <= c / n <= 1.0
    ensures c / n == 1.0 <==> c == n
  {
    var r := c / n;
    assert r * n == c;
  }

  /** `str.strip()` ignores a leading space. */
  lemma StripLeadingSpace(s: string)
    ensures Strip(" " + s) == Strip(s)
  {
    assert (" " + s)[1..] == s;
    assert TrimLeft(" " + s) == TrimLeft(s);
  }

  /** Whitespace in front of the content changes nothing: lengths and words are measured after stripping. */
  lemma LeadingSpaceIgnored(v: ContentValidator, s: string)
    requires s != []
    ensures ValidateContentLength(v, Str(" " + s)) == ValidateContentLength(v, Str(s))
  {
    StripLeadingSpace(s);
    assert CountWords(Str(" " + s)) == CountWords(Str(s));
  }
}
