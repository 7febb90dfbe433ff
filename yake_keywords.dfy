/**
 * Keyword post-processing for the YAKE model: of the keywords the extractor
 * returns, those contained in a strictly longer keyword are dropped; and the
 * extraction parameters are read from the message with their defaults.
 */
module YakeKeywords {
  import opened Wrappers
  import opened Strings
  import opened JsonValues
  import opened BaseException
  import opened Schemas

  /** A `(keyword, score)` pair; the score is a float and is only carried along. */
  datatype Keyword = Keyword(phrase: string, score: Json)

  /** `other` eliminates `k`: it is strictly longer and contains it (`other.find(k) >= 0`). */
  predicate Eliminates(other: Keyword, k: Keyword) {
    |other.phrase| > |k.phrase| && Contains(other.phrase, k.phrase)
  }

  /** Some keyword of the list eliminates `k`. */
  predicate Eliminated(keywords: seq<Keyword>, k: Keyword) {
    exists j :: 0 <= j < |keywords| && Eliminates(keywords[j], k)
  }

  /** The keywords of `xs`, in order, that no keyword of `all` eliminates. */
  function Survivors(all: seq<Keyword>, xs: seq<Keyword>): (r: seq<Keyword>)
    ensures |r| <= |xs|
    ensures forall k :: k in r <==> k in xs && !Eliminated(all, k)
  {
    if xs == [] then []
    else
      var rest := Survivors(all, xs[1..]);
      assert forall k :: k in xs <==> k == xs[0] || k in xs[1..];
      if Eliminated(all, xs[0]) then rest else [xs[0]] + rest
  }

  /** The filter keeps the order of its input: it distributes over concatenation. */
  lemma {:induction false} SurvivorsConcat(all: seq<Keyword>, a: seq<Keyword>, b: seq<Keyword>)
    ensures Survivors(all, a + b) == Survivors(all, a) + Survivors(all, b)
    decreases |a|
  {
    if a == [] {
      assert a + b == b;
    } else {
      assert (a + b)[0] == a[0];
      assert (a + b)[1..] == a[1..] + b;
      SurvivorsConcat(all, a[1..], b);
    }
  }

  /** One more keyword to filter: it is appended exactly when nothing eliminates it. */
  lemma SurvivorsSnoc(all: seq<Keyword>, xs: seq<Keyword>, x: Keyword)
    ensures Survivors(all, xs + [x]) == Survivors(all, xs) + (if Eliminated(all, x) then [] else [x])
  {
    SurvivorsConcat(all, xs, [x]);
    assert [x][1..] == [];
  }

  /**
   * `keep_largest_overlapped_keywords(keywords)`: for each keyword, look
   * for a strictly longer one containing it, and keep it if there is none.
   */
  method KeepLargestOverlappedKeywords(keywords: seq<Keyword>) returns (cleaned: seq<Keyword>)
    ensures cleaned == Survivors(keywords, keywords)
  {
    cleaned := [];
    for i := 0 to |keywords|
      invariant cleaned == Survivors(keywords, keywords[..i])
    {
      var keepKeyword := true;
      for j := 0 to |keywords|
        invariant keepKeyword
        invariant forall j' :: 0 <= j' < j ==> !Eliminates(keywords[j'], keywords[i])
      {
        var currentKeyword := keywords[i].phrase;
        var otherKeyword := keywords[j].phrase;
        if |otherKeyword| > |currentKeyword| {
          if Find(otherKeyword, currentKeyword).Some? {
            keepKeyword := false;
            break;
          }
        }
      }
      assert keepKeyword <==> !Eliminated(keywords, keywords[i]);
      SurvivorsSnoc(keywords, keywords[..i], keywords[i]);
      assert keywords[..i + 1] == keywords[..i] + [keywords[i]];
      if keepKeyword {
        cleaned := cleaned + [keywords[i]];
      }
    }
    assert keywords[..|keywords|] == keywords;
  }

  /** `xs` can be obtained from `ys` by deleting elements. */
  predicate Subsequence(xs: seq<Keyword>, ys: seq<Keyword>)
    decreases |ys|
  {
    xs == [] || (ys != [] && ((xs[0] == ys[0] && Subsequence(xs[1..], ys[1..])) || Subsequence(xs, ys[1..])))
  }

  /** The kept keywords are a subsequence of the input: nothing is added or reordered. */
  lemma {:induction false} SurvivorsSubsequence(all: seq<Keyword>, xs: seq<Keyword>)
    ensures Subsequence(Survivors(all, xs), xs)
    decreases |xs|
  {
    if xs != [] {
      SurvivorsSubsequence(all, xs[1..]);
      if !Eliminated(all, xs[0]) {
        assert ([xs[0]] + Survivors(all, xs[1..]))[1..] == Survivors(all, xs[1..]);
      }
    }
  }

  /** A keyword at least as long as every other one is never eliminated, so it is kept. */
  lemma LongestKept(keywords: seq<Keyword>, i: nat)
    requires i < |keywords|
    requires forall j :: 0 <= j < |keywords| ==> |keywords[j].phrase| <= |keywords[i].phrase|
    ensures keywords[i] in Survivors(keywords, keywords)
  {
    forall j | 0 <= j < |keywords| ensures !Eliminates(keywords[j], keywords[i]) {
    }
  }

  /** The index of a longest keyword. */
  function LongestIndex(keywords: seq<Keyword>): (i: nat)
    requires |keywords| > 0
    ensures i < |keywords|
    ensures forall j :: 0 <= j < |keywords| ==> |keywords[j].phrase| <= |keywords[i].phrase|
  {
    if |keywords| == 1 then 0
    else
      var i := LongestIndex(keywords[1..]);
      assert forall j :: 1 <= j < |keywords| ==> keywords[j] == keywords[1..][j - 1];
      if |keywords[0].phrase| >= |keywords[i + 1].phrase| then 0 else i + 1
  }

  /** A non-empty list of keywords keeps at least one. */
  lemma NonEmptyKept(keywords: seq<Keyword>)
    requires |keywords| > 0
    ensures |Survivors(keywords, keywords)| > 0
  {
    LongestKept(keywords, LongestIndex(keywords));
  }

  /** When no keyword eliminates any of `xs`, the filter keeps all of them. */
  lemma {:induction false} NoneEliminated(all: seq<Keyword>, xs: seq<Keyword>)
    requires forall i :: 0 <= i < |xs| ==> !Eliminated(all, xs[i])
    ensures Survivors(all, xs) == xs
    decreases |xs|
  {
    if xs != [] {
      assert !Eliminated(all, xs[0]);
      assert forall i :: 1 <= i < |xs| ==> xs[i] == xs[1..][i - 1];
      NoneEliminated(all, xs[1..]);
    }
  }

  /** Keywords of equal length never eliminate each other: all of them are kept. */
  lemma EqualLengthsKept(keywords: seq<Keyword>, n: nat)
    requires forall i :: 0 <= i < |keywords| ==> |keywords[i].phrase| == n
    ensures Survivors(keywords, keywords) == keywords
  {
    forall i | 0 <= i < |keywords| ensures !Eliminated(keywords, keywords[i]) {
      forall j | 0 <= j < |keywords| ensures !Eliminates(keywords[j], keywords[i]) {
      }
    }
    NoneEliminated(keywords, keywords);
  }

  /** Filtering twice keeps what filtering once kept. */
  lemma Idempotent(keywords: seq<Keyword>)
    ensures Survivors(Survivors(keywords, keywords), Survivors(keywords, keywords)) == Survivors(keywords, keywords)
  {
    var kept := Survivors(keywords, keywords);
    forall i | 0 <= i < |kept| ensures !Eliminated(kept, kept[i]) {
      assert kept[i] in kept;
      forall j | 0 <= j < |kept| ensures !Eliminates(kept[j], kept[i]) {
        assert kept[j] in kept;
        var j' :| 0 <= j' < |keywords| && keywords[j'] == kept[j];
        assert !Eliminates(keywords[j'], kept[i]);
      }
    }
    NoneEliminated(kept, kept);
  }

  /** The arguments `run_yake` is called with. */
  datatype YakeParams = YakeParams(
    text: string,
    language: Json,
    maxNgramSize: Json,
    deduplicationThreshold: Json,
    deduplicationAlgo: Json,
    windowSize: Json,
    numOfKeywords: Json)

  /** The defaults, in the order `run_yake` takes them; 0.25 is a float and kept as mantissa and exponent. */
  const DEFAULT_LANGUAGE: Json := JString("auto")
  const DEFAULT_MAX_NGRAM_SIZE: Json := JInt(3)
  const DEFAULT_DEDUPLICATION_THRESHOLD: Json := JFloat(25, -2)
  const DEFAULT_DEDUPLICATION_ALGO: Json := JString("seqm")
  const DEFAULT_WINDOW_SIZE: Json := JInt(0)
  const DEFAULT_NUM_OF_KEYWORDS: Json := JInt(10)

  /**
   * `get_params(message)`: the body's text and each parameter, the caller's
   * value where given and the default otherwise; the text must be present.
   */
  function GetParams(message: Message): (r: Result<YakeParams, Exc>)
    ensures message.body.parameters.None? ==> r == Err(AttributeError("get"))
    ensures message.body.parameters.Some? && message.body.text.None? ==> r == Err(AssertionError)
    ensures r.Ok? ==> Some(r.value.text) == message.body.text
    ensures r.Ok? ==>
      var p := message.body.parameters.value;
      && r.value.language == (if "language" in p then p["language"] else DEFAULT_LANGUAGE)
      && r.value.maxNgramSize == (if "max_ngram_size" in p then p["max_ngram_size"] else DEFAULT_MAX_NGRAM_SIZE)
      && r.value.deduplicationThreshold == (if "deduplication_threshold" in p then p["deduplication_threshold"] else DEFAULT_DEDUPLICATION_THRESHOLD)
      && r.value.deduplicationAlgo == (if "deduplication_algo" in p then p["deduplication_algo"] else DEFAULT_DEDUPLICATION_ALGO)
      && r.value.windowSize == (if "window_size" in p then p["window_size"] else DEFAULT_WINDOW_SIZE)
      && r.value.numOfKeywords == (if "num_of_keywords" in p then p["num_of_keywords"] else DEFAULT_NUM_OF_KEYWORDS)
  {
    if message.body.parameters.None? then Err(AttributeError("get"))
    else
      var p := message.body.parameters.value;
      var language := GetOr(p, "language", DEFAULT_LANGUAGE);
      var maxNgramSize := GetOr(p, "max_ngram_size", DEFAULT_MAX_NGRAM_SIZE);
      var threshold := GetOr(p, "deduplication_threshold", DEFAULT_DEDUPLICATION_THRESHOLD);
      var algo := GetOr(p, "deduplication_algo", DEFAULT_DEDUPLICATION_ALGO);
      var windowSize := GetOr(p, "window_size", DEFAULT_WINDOW_SIZE);
      var count := GetOr(p, "num_of_keywords", DEFAULT_NUM_OF_KEYWORDS);
      if message.body.text.None? then Err(AssertionError)
      else Ok(YakeParams(message.body.text.value, language, maxNgramSize, threshold, algo, windowSize, count))
  }
}
