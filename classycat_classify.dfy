/**
 * ClassyCat classification: a batch of items is put into a schema's prompt,
 * sent to an LLM, and the LLM's tagged answer is parsed back into one list
 * of labels per item. Labels outside the schema's topics (besides "Other"
 * and "Unsure") are dropped, and a batch with any label left is stored in
 * the bucket. The LLM, the fresh results-file id and the configuration
 * read from the environment are parameters.
 */
module ClassyCatClassify {
  import opened Wrappers
  import opened Strings
  import opened JsonValues
  import opened BaseException
  import opened Schemas
  import opened Buckets
  import opened ClassyCatSchemaCreate

  /** The LLM back ends `get_llm_client` knows. */
  datatype LlmClient = AnthropicClient(modelName: Option<string>) | OpenRouterClient(modelName: Option<string>)

  /** `get_llm_client(client_type, model_name)`. */
  function GetLlmClient(clientType: Option<string>, modelName: Option<string>): (r: Result<LlmClient, Exc>)
    ensures r.Ok? <==> clientType == Some("anthropic") || clientType == Some("openrouter")
    ensures r.Ok? ==> r.value.modelName == modelName && (r.value.AnthropicClient? <==> clientType == Some("anthropic"))
    ensures r.Err? ==> r.error.Code() == Some(500)
  {
    if clientType == Some("anthropic") then Ok(AnthropicClient(modelName))
    else if clientType == Some("openrouter") then Ok(OpenRouterClient(modelName))
    else Err(Raise("Unknown LLM client type " + (if clientType.Some? then clientType.value else "None"), 500))
  }

  /** The completion budget both clients ask for: 200 tokens per item by default, plus 15. */
  const MAX_TOKENS_PER_ITEM: int := 200

  function MaxTokens(itemsCount: nat, maxTokensPerItem: int := MAX_TOKENS_PER_ITEM): (r: int)
    ensures maxTokensPerItem >= 0 ==> r >= 15
    ensures r - 15 == maxTokensPerItem * itemsCount
  {
    maxTokensPerItem * itemsCount + 15
  }

  /** `format_input_for_classification_prompt(items)`: one `<ITEM_i>` line per item, in order. */
  function FormatInputForClassificationPrompt(texts: seq<string>): string {
    Join("\n", ItemLines(texts))
  }

  /** A number written in decimal has no line break and no angle bracket. */
  lemma DigitsPlain(n: nat)
    ensures '\n' !in NatToString(n) && '<' !in NatToString(n)
  {
    var d := NatToString(n);
    forall k | 0 <= k < |d| ensures d[k] != '\n' && d[k] != '<' {
      assert IsDigit(d[k]);
    }
  }

  /** Item texts free of line breaks come back, one per line, when the formatted batch is split on line breaks. */
  lemma FormattedItemLines(texts: seq<string>)
    requires |texts| > 0
    requires forall i :: 0 <= i < |texts| ==> '\n' !in texts[i]
    ensures Split(FormatInputForClassificationPrompt(texts), "\n") == ItemLines(texts)
  {
    var lines := ItemLines(texts);
    forall i | 0 <= i < |lines| ensures '\n' !in lines[i] {
      DigitsPlain(i);
      assert lines[i] == "<" + "ITEM" + "_" + NatToString(i) + ">" + texts[i] + ("</" + "ITEM" + "_" + NatToString(i) + ">");
    }
    SplitJoinChar(lines, '\n');
  }

  /** Every item text appears in the formatted batch. */
  lemma FormattedItemsMention(texts: seq<string>, i: nat)
    requires i < |texts|
    ensures Contains(FormatInputForClassificationPrompt(texts), texts[i])
  {
    ContainsSelf(texts[i]);
    TaggedMentions(OpenTag("ITEM", i), texts[i], CloseTag("ITEM", i), texts[i]);
    JoinContains("\n", ItemLines(texts), i);
    ContainsTransitive(FormatInputForClassificationPrompt(texts), ItemLines(texts)[i], texts[i]);
  }

  /**
   * The labels on line `i` of the answer: the text before `</CATEGORIES_i>`,
   * after `<CATEGORIES_i>`, stripped and split on `;`. A line without the
   * opening tag is an IndexError.
   */
  function LineLabels(i: nat, line: string): (r: Result<seq<string>, Exc>)
    ensures r.Ok? ==> |r.value| > 0
    ensures r.Err? ==> r.error == IndexError
  {
    var before := Split(line, CloseTag("CATEGORIES", i))[0];
    var parts := Split(before, OpenTag("CATEGORIES", i));
    if |parts| < 2 then Err(IndexError) else Ok(Split(Strip(parts[1]), ";"))
  }

  /**
   * Line `i` fails exactly when `<CATEGORIES_i>` does not occur before the
   * first `</CATEGORIES_i>`; in particular a line without the opening tag fails.
   */
  lemma LineLabelsFailure(i: nat, line: string)
    ensures LineLabels(i, line).Err? <==> !Contains(Split(line, CloseTag("CATEGORIES", i))[0], OpenTag("CATEGORIES", i))
    ensures !Contains(line, OpenTag("CATEGORIES", i)) ==> LineLabels(i, line) == Err(IndexError)
  {
    var close, open := CloseTag("CATEGORIES", i), OpenTag("CATEGORIES", i);
    var before := Split(line, close)[0];
    if !Contains(before, open) {
      SplitAbsent(before, open);
    }
    SplitFirstPrefix(line, close);
    if Contains(before, open) {
      ContainsLeft(before, line[|before|..], open);
    }
  }

  /** The lines between `<OUTPUT>` and `</OUTPUT>`, or an IndexError when there is no `<OUTPUT>`. */
  function OutputLines(rawResults: string): (r: Result<seq<string>, Exc>)
    ensures r.Ok? ==> |r.value| > 0
    ensures r.Err? ==> r.error == IndexError
  {
    var parts := Split(Strip(rawResults), "<OUTPUT>");
    if |parts| < 2 then
      Err(IndexError)
    else
      Ok(Split(Strip(Split(parts[1], "</OUTPUT>")[0]), "\n"))
  }

  /** What `parse_classification_results` gives: one label list per output line, or the first line's failure. */
  function ParseResults(rawResults: string): (r: Result<seq<seq<string>>, Exc>)
    ensures r.Err? ==> r.error == IndexError
  {
    var lines :- OutputLines(rawResults);
    if forall i :: 0 <= i < |lines| ==> LineLabels(i, lines[i]).Ok? then
      Ok(seq(|lines|, i requires 0 <= i < |lines| => LineLabels(i, lines[i]).value))
    else
      Err(IndexError)
  }

  /**
   * `parse_classification_results(raw_results)`: the lines of the output
   * block are parsed one after the other.
   */
  method ParseClassificationResults(rawResults: string) returns (r: Result<seq<seq<string>>, Exc>)
    ensures r == ParseResults(rawResults)
    ensures r.Ok? ==> |r.value| > 0 && forall i :: 0 <= i < |r.value| ==> |r.value[i]| > 0
  {
    var results := OutputLines(rawResults);
    if results.Err? {
      return Err(results.error);
    }
    var lines := results.value;
    var finalResults: seq<seq<string>> := [];
    var i := 0;
    while i < |lines|
      invariant 0 <= i <= |lines|
      invariant |finalResults| == i
      invariant forall k :: 0 <= k < i ==> LineLabels(k, lines[k]) == Ok(finalResults[k])
    {
      var labels := LineLabels(i, lines[i]);
      if labels.Err? {
        return Err(labels.error);
      }
      finalResults := finalResults + [labels.value];
      i := i + 1;
    }
    assert finalResults == seq(|lines|, k requires 0 <= k < |lines| => LineLabels(k, lines[k]).value);
    r := Ok(finalResults);
  }

  /** The answer text the LLM is asked for: the output block with one categories line per item. */
  function OutputBlock(lists: seq<seq<string>>): string {
    "<OUTPUT>\n" + Join("\n", CategoriesLines(lists)) + "\n</OUTPUT>"
  }

  /** Labels that survive the round trip: non-empty, trimmed, and free of `;`, `<` and line breaks. */
  predicate PlainLabel(text: string) {
    |text| > 0 && Trimmed(text) && ';' !in text && '<' !in text && '\n' !in text
  }

  /** An answer of at least one line, each with at least one plain label. */
  predicate PlainAnswer(lists: seq<seq<string>>) {
    && |lists| > 0
    && (forall i :: 0 <= i < |lists| ==> |lists[i]| > 0)
    && (forall i, j :: 0 <= i < |lists| && 0 <= j < |lists[i]| ==> PlainLabel(lists[i][j]))
  }

  /** A `<` at `j` is followed by `C` or by `/C`: the shape of the categories tags. */
  predicate TagAt(s: string, j: int)
    requires 0 <= j < |s|
  {
    s[j] == '<' ==> j + 2 < |s| && (s[j + 1] == 'C' || (s[j + 1] == '/' && s[j + 2] == 'C'))
  }

  predicate TagsOk(s: string) {
    forall j :: 0 <= j < |s| ==> TagAt(s, j)
  }

  /** Every `<` is followed by `C`: the shape of an opening categories tag. */
  predicate OpensOnly(s: string) {
    forall j :: 0 <= j < |s| && s[j] == '<' ==> j + 1 < |s| && s[j + 1] == 'C'
  }

  lemma TagsConcat(a: string, b: string)
    requires TagsOk(a) && TagsOk(b)
    ensures TagsOk(a + b)
  {
    var s := a + b;
    forall j | 0 <= j < |s|
      ensures TagAt(s, j)
    {
      if j < |a| {
        assert TagAt(a, j);
        if a[j] == '<' {
          assert s[j + 1] == a[j + 1] && s[j + 2] == a[j + 2];
        }
      } else {
        var k := j - |a|;
        assert TagAt(b, k);
        if b[k] == '<' {
          assert s[j + 1] == b[k + 1] && s[j + 2] == b[k + 2];
        }
      }
    }
  }

  lemma {:induction false} JoinTagsOk(parts: seq<string>)
    requires forall i :: 0 <= i < |parts| ==> TagsOk(parts[i])
    ensures TagsOk(Join("\n", parts))
  {
    if |parts| > 1 {
      JoinTagsOk(parts[1..]);
      TagsConcat(parts[0], "\n");
      TagsConcat(parts[0] + "\n", Join("\n", parts[1..]));
    }
  }

  /** The joined labels of a plain line: no `<`, no line break, trimmed, not empty. */
  lemma JoinedLabels(labels: seq<string>)
    requires |labels| > 0 && forall j :: 0 <= j < |labels| ==> PlainLabel(labels[j])
    ensures var joined := Join(";", labels);
      '<' !in joined && '\n' !in joined && |joined| > 0 && Trimmed(joined)
  {
    JoinFree(";", labels, '<');
    JoinFree(";", labels, '\n');
    JoinEnds(";", labels);
  }

  /** The shape facts about one categories line. */
  lemma CategoriesLineShape(i: nat, labels: seq<string>)
    requires |labels| > 0 && forall j :: 0 <= j < |labels| ==> PlainLabel(labels[j])
    ensures var line := CategoriesLine(i, labels);
      && TagsOk(line) && '\n' !in line && |line| > 0 && line[0] == '<' && line[|line| - 1] == '>'
      && OpensOnly(OpenTag("CATEGORIES", i) + Join(";", labels))
  {
    JoinedLabels(labels);
    var joined := Join(";", labels);
    var head := OpenTag("CATEGORIES", i) + joined;
    var close := CloseTag("CATEGORIES", i);
    OpenHeadShape(i, joined);
    CloseTagShape(i);
    TagsConcat(head, close);
    var line := CategoriesLine(i, labels);
    assert line == head + close;
    assert line[0] == head[0] && line[|line| - 1] == close[|close| - 1];
  }

  /** `<CATEGORIES_i>` followed by text without `<`: its only `<` opens a categories tag. */
  lemma OpenHeadShape(i: nat, joined: string)
    requires '<' !in joined && '\n' !in joined
    ensures var head := OpenTag("CATEGORIES", i) + joined;
      && OpensOnly(head) && TagsOk(head) && |head| > 0 && head[0] == '<' && '\n' !in head
  {
    var digits := NatToString(i);
    DigitsPlain(i);
    var head := OpenTag("CATEGORIES", i) + joined;
    var headTail := "CATEGORIES_" + digits + ">" + joined;
    assert '<' !in "CATEGORIES_" && '<' !in ">";
    assert '<' !in headTail;
    assert head == "<" + headTail;
    forall j | 0 < j < |head| ensures head[j] != '<' {
      assert head[j] == headTail[j - 1];
    }
    assert head[1] == 'C';
    assert OpensOnly(head);
    forall j | 0 <= j < |head| ensures TagAt(head, j) {
    }
    assert '\n' !in "<CATEGORIES_" && '\n' !in ">";
    assert head == "<CATEGORIES_" + digits + ">" + joined;
  }

  /** `</CATEGORIES_i>`: its only `<` starts a closing categories tag. */
  lemma CloseTagShape(i: nat)
    ensures var close := CloseTag("CATEGORIES", i);
      && TagsOk(close) && |close| > 0 && close[|close| - 1] == '>' && '\n' !in close
  {
    var digits := NatToString(i);
    DigitsPlain(i);
    var close := CloseTag("CATEGORIES", i);
    var closeTail := "/CATEGORIES_" + digits + ">";
    assert '<' !in "/CATEGORIES_";
    assert '<' !in closeTail;
    assert close == "<" + closeTail;
    forall j | 0 < j < |close| ensures close[j] != '<' {
      assert close[j] == closeTail[j - 1];
    }
    assert close[1] == '/' && close[2] == 'C';
    forall j | 0 <= j < |close| ensures TagAt(close, j) {
    }
    assert '\n' !in "</CATEGORIES_" && '\n' !in ">";
    assert close == "</CATEGORIES_" + digits + ">";
  }


  /** No `<OUTPUT>` in text whose tags are all categories tags, followed by `</OUTPUT>`. */
  lemma NoOutputOpen(pre: string)
    requires TagsOk(pre)
    ensures forall j: nat :: !OccursAt(pre + "</OUTPUT>", "<OUTPUT>", j)
  {
    var s := pre + "</OUTPUT>";
    forall j: nat ensures !OccursAt(s, "<OUTPUT>", j) {
      if j + 8 <= |s| {
        assert s[j..j + 8][0] == s[j] && s[j..j + 8][1] == s[j + 1];
        if j < |pre| {
          assert s[j] == pre[j];
          assert TagAt(pre, j);
          if pre[j] == '<' {
            assert s[j + 1] == pre[j + 1];
          }
        } else {
          assert s[|pre|] == '<' && s[|pre| + 1] == '/' && s[|pre| + 2] == 'O';
        }
      }
    }
  }

  /** The first `</OUTPUT>` is the one after text whose tags are all categories tags. */
  lemma OutputCloseFirst(pre: string)
    requires TagsOk(pre)
    ensures forall j: nat :: j < |pre| ==> !OccursAt(pre + "</OUTPUT>", "</OUTPUT>", j)
  {
    var s := pre + "</OUTPUT>";
    forall j: nat | j < |pre| ensures !OccursAt(s, "</OUTPUT>", j) {
      if j + 9 <= |s| {
        assert s[j..j + 9][0] == s[j] && s[j..j + 9][1] == s[j + 1] && s[j..j + 9][2] == s[j + 2];
        assert s[j] == pre[j];
        assert TagAt(pre, j);
        if pre[j] == '<' {
          assert s[j + 1] == pre[j + 1] && s[j + 2] == pre[j + 2];
        }
      }
    }
  }

  /** An output block around text whose tags are all categories tags is unchanged by `strip` and splits once on `<OUTPUT>`. */
  lemma SplitAfterOpen(pre: string)
    requires TagsOk(pre) && |pre| > 0 && pre[0] == '\n'
    ensures Split(Strip("<OUTPUT>" + (pre + "</OUTPUT>")), "<OUTPUT>") == ["", pre + "</OUTPUT>"]
  {
    var rest := pre + "</OUTPUT>";
    var raw := "<OUTPUT>" + rest;
    assert raw == "" + "<OUTPUT>" + rest;
    assert Trimmed(raw);
    StripTrimmed(raw);
    NoOutputOpen(pre);
    SplitNoOccurrence(rest, "<OUTPUT>");
    SplitAt("", "<OUTPUT>", rest);
  }

  /** Text whose tags are all categories tags is what comes before the first `</OUTPUT>` after it. */
  lemma SplitBeforeClose(pre: string)
    requires TagsOk(pre)
    ensures Split(pre + "</OUTPUT>", "</OUTPUT>")[0] == pre
  {
    OutputCloseFirst(pre);
    assert pre + "</OUTPUT>" + "" == pre + "</OUTPUT>";
    SplitAt(pre, "</OUTPUT>", "");
  }

  /** Line `i` of a well-formed answer parses to its labels. */
  lemma LineLabelsOfCategoriesLine(i: nat, labels: seq<string>)
    requires |labels| > 0 && forall j :: 0 <= j < |labels| ==> PlainLabel(labels[j])
    ensures LineLabels(i, CategoriesLine(i, labels)) == Ok(labels)
  {
    CategoriesLineShape(i, labels);
    JoinedLabels(labels);
    var open := OpenTag("CATEGORIES", i);
    var close := CloseTag("CATEGORIES", i);
    var joined := Join(";", labels);
    var head := open + joined;
    var line := CategoriesLine(i, labels);
    assert line == head + close + "";
    assert close[0] == '<' && close[1] == '/';
    forall j: nat | j < |head| ensures !OccursAt(line, close, j) {
      if j + |close| <= |line| {
        assert line[j..j + |close|][0] == line[j] && line[j..j + |close|][1] == line[j + 1];
        assert line[j] == head[j];
        if head[j] == '<' {
          assert line[j + 1] == head[j + 1];
        }
      }
    }
    SplitAt(head, close, "");
    assert Split(line, close)[0] == head;
    assert head == "" + open + joined;
    assert "<" + "CATEGORIES" + "_" + NatToString(i) + ">" == open;
    AbsentFirstChar(joined, open);
    ContainsIff(joined, open);
    SplitNoOccurrence(joined, open);
    SplitAt("", open, joined);
    assert Split(head, open) == ["", joined];
    StripTrimmed(joined);
    SplitJoinChar(labels, ';');
  }

  /** The categories lines of a plain answer, joined: one tag-shaped line per item. */
  lemma AnswerBodyShape(lists: seq<seq<string>>)
    requires PlainAnswer(lists)
    ensures var lines := CategoriesLines(lists);
      var body := Join("\n", lines);
      && (forall i :: 0 <= i < |lines| ==> '\n' !in lines[i])
      && TagsOk(body) && |body| > 0 && body[0] == '<' && body[|body| - 1] == '>'
  {
    var lines := CategoriesLines(lists);
    forall i | 0 <= i < |lines|
      ensures TagsOk(lines[i]) && '\n' !in lines[i] && |lines[i]| > 0
      ensures lines[i][0] == '<' && lines[i][|lines[i]| - 1] == '>'
    {
      CategoriesLineShape(i, lists[i]);
    }
    JoinTagsOk(lines);
    JoinEnds("\n", lines);
  }

  /** The output block of a plain answer yields exactly its categories lines. */
  lemma OutputLinesOfBlock(lists: seq<seq<string>>)
    requires PlainAnswer(lists)
    ensures OutputLines(OutputBlock(lists)) == Ok(CategoriesLines(lists))
  {
    var lines := CategoriesLines(lists);
    var body := Join("\n", lines);
    var pre := "\n" + body + "\n";
    PaddedAnswerBody(lists);
    var raw := OutputBlock(lists);
    OutputBlockAround(body);
    SplitAfterOpen(pre);
    SplitBeforeClose(pre);
    OutputLinesOfParts(raw, pre, body, lines);
  }

  /** The output block is its padded body between `<OUTPUT>` and `</OUTPUT>`. */
  lemma OutputBlockAround(body: string)
    ensures "<OUTPUT>\n" + body + "\n</OUTPUT>" == "<OUTPUT>" + ("\n" + body + "\n" + "</OUTPUT>")
  {
    assert "<OUTPUT>\n" == "<OUTPUT>" + "\n";
    assert "\n</OUTPUT>" == "\n" + "</OUTPUT>";
  }

  /** The answer's lines, joined and padded with line breaks: tags are categories tags, and strip and split give the lines back. */
  lemma PaddedAnswerBody(lists: seq<seq<string>>)
    requires PlainAnswer(lists)
    ensures var lines := CategoriesLines(lists);
      var body := Join("\n", lines);
      var pre := "\n" + body + "\n";
      && TagsOk(pre) && |pre| > 0 && pre[0] == '\n'
      && Strip(pre) == body && Split(body, "\n") == lines
  {
    var lines := CategoriesLines(lists);
    var body := Join("\n", lines);
    AnswerBodyShape(lists);
    TagsConcat("\n", body);
    TagsConcat("\n" + body, "\n");
    StripPadded("\n", body, "\n");
    SplitJoinChar(lines, '\n');
  }

  /** `OutputLines` step by step: the block after `<OUTPUT>`, before `</OUTPUT>`, stripped, split into lines. */
  lemma OutputLinesOfParts(raw: string, pre: string, body: string, lines: seq<string>)
    requires Split(Strip(raw), "<OUTPUT>") == ["", pre + "</OUTPUT>"]
    requires Split(pre + "</OUTPUT>", "</OUTPUT>")[0] == pre
    requires Strip(pre) == body && Split(body, "\n") == lines
    ensures OutputLines(raw) == Ok(lines)
  {
  }

  /** Parsing the answer the prompt asks for gives back the label lists it was written from. */
  lemma ParseOutputBlock(lists: seq<seq<string>>)
    requires PlainAnswer(lists)
    ensures ParseResults(OutputBlock(lists)) == Ok(lists)
  {
    var lines := CategoriesLines(lists);
    OutputLinesOfBlock(lists);
    forall i | 0 <= i < |lines| ensures LineLabels(i, lines[i]) == Ok(lists[i]) {
      LineLabelsOfCategoriesLine(i, lists[i]);
    }
    assert seq(|lines|, i requires 0 <= i < |lines| => LineLabels(i, lines[i]).value) == lists;
  }

  /** An answer with no output block is an IndexError. */
  lemma ParseWithoutOutputBlock(rawResults: string)
    requires !Contains(rawResults, "<OUTPUT>")
    ensures ParseResults(rawResults) == Err(IndexError)
  {
    if Contains(Strip(rawResults), "<OUTPUT>") {
      StripContains(rawResults, "<OUTPUT>");
    }
  }

  /**
   * The answer parses exactly when it has an output block and every line of
   * it parses; line `i` of the result holds the labels of output line `i`.
   */
  lemma ParseResultsByLine(rawResults: string)
    ensures var r, lines := ParseResults(rawResults), OutputLines(rawResults);
      r.Ok? <==> lines.Ok? && forall i :: 0 <= i < |lines.value| ==> LineLabels(i, lines.value[i]).Ok?
    ensures var r, lines := ParseResults(rawResults), OutputLines(rawResults);
      r.Ok? ==>
        && |r.value| == |lines.value|
        && forall i :: 0 <= i < |r.value| ==> LineLabels(i, lines.value[i]) == Ok(r.value[i])
  {
  }

  /** An output line without its `<CATEGORIES_i>` tag makes the whole answer an IndexError. */
  lemma UnlabelledLine(rawResults: string, k: nat)
    requires OutputLines(rawResults).Ok? && k < |OutputLines(rawResults).value|
    requires !Contains(OutputLines(rawResults).value[k], OpenTag("CATEGORIES", k))
    ensures ParseResults(rawResults) == Err(IndexError)
  {
    LineLabelsFailure(k, OutputLines(rawResults).value[k]);
  }

  /** `len(x)` for the JSON values that have a length; anything else is a TypeError. */
  function LenOf(j: Json): (r: Result<nat, Exc>)
    ensures r.Ok? <==> j.JArray? || j.JObject? || j.JString?
    ensures j.JArray? ==> r == Ok(|j.items|)
  {
    match j
    case JArray(xs) => Ok(|xs|)
    case JObject(f) => Ok(|f|)
    case JString(s) => Ok(|s|)
    case _ => Err(TypeError)
  }

  /**
   * The elements `for item in items` visits, as far as each can then be
   * indexed by a string key: a list gives its elements; an empty dict or
   * string gives none; a non-empty dict or string yields strings, which
   * cannot be indexed by a key, and anything else is not iterable.
   */
  function Elements(items: Json): (r: Result<seq<Json>, Exc>)
    ensures items.JArray? ==> r == Ok(items.items)
    ensures r.Ok? && !items.JArray? ==> r.value == []
  {
    match items
    case JArray(xs) => Ok(xs)
    case JObject(f) => if |f| == 0 then Ok([]) else Err(TypeError)
    case JString(s) => if s == "" then Ok([]) else Err(TypeError)
    case _ => Err(TypeError)
  }

  /** `item[key]`. */
  function Field(item: Json, key: string): (r: Result<Json, Exc>)
    ensures r.Ok? <==> item.JObject? && key in item.fields
    ensures r.Ok? ==> r.value == item.fields[key]
  {
    if !item.JObject? then Err(TypeError)
    else if key !in item.fields then Err(KeyError(key))
    else Ok(item.fields[key])
  }

  /** `[item[key] for item in items]`: the first item that fails decides the error. */
  function FieldAll(items: seq<Json>, key: string): (r: Result<seq<Json>, Exc>)
    ensures r.Ok? <==> forall i :: 0 <= i < |items| ==> Field(items[i], key).Ok?
    ensures r.Ok? ==> |r.value| == |items| && forall i :: 0 <= i < |items| ==> Field(items[i], key) == Ok(r.value[i])
  {
    if items == [] then Ok([])
    else
      var first :- Field(items[0], key);
      var rest :- FieldAll(items[1..], key);
      assert forall i :: 1 <= i < |items| ==> items[i] == items[1..][i - 1];
      Ok([first] + rest)
  }

  /** `str(item)` for each item, as the prompt's f-string writes it. */
  function Texts(items: seq<Json>): (r: seq<string>)
    ensures |r| == |items| && forall i :: 0 <= i < |items| ==> r[i] == PyStr(items[i])
  {
    seq(|items|, i requires 0 <= i < |items| => PyStr(items[i]))
  }

  /** The prompt sent for a batch: the items put in place of the schema prompt's placeholder. */
  function TaskPrompt(promptTemplate: string, texts: seq<string>): string {
    Replace(promptTemplate, ITEMS_PLACEHOLDER, FormatInputForClassificationPrompt(texts))
  }

  /** A schema's prompt has its placeholder replaced by the formatted items. */
  lemma TaskPromptOfSchema(schema: Schema, texts: seq<string>, i: nat)
    requires i < |texts|
    ensures Contains(TaskPrompt(Prompt(schema), texts), texts[i])
  {
    var prompt := Prompt(schema);
    PromptEndsWithItemsSlot(schema);
    ReplaceIntroduces(prompt, ITEMS_PLACEHOLDER, FormatInputForClassificationPrompt(texts));
    FormattedItemsMention(texts, i);
    ContainsTransitive(TaskPrompt(prompt, texts), FormatInputForClassificationPrompt(texts), texts[i]);
  }

  /**
   * `classify(prompt_template, items)`: what the LLM answers for the task
   * prompt, parsed. `llm` stands for the client's `classify`, given the
   * prompt and the token budget.
   */
  function ClassifyTexts(promptTemplate: string, items: seq<Json>, llm: (string, int) -> Result<string, Exc>): Result<seq<seq<string>>, Exc> {
    var raw :- llm(TaskPrompt(promptTemplate, Texts(items)), MaxTokens(|items|));
    ParseResults(raw)
  }

  method Classify(promptTemplate: string, items: seq<Json>, llm: (string, int) -> Result<string, Exc>)
    returns (r: Result<seq<seq<string>>, Exc>)
    ensures r == ClassifyTexts(promptTemplate, items, llm)
    ensures r.Ok? ==> |r.value| > 0
  {
    var taskPrompt := TaskPrompt(promptTemplate, Texts(items));
    var rawResults := llm(taskPrompt, MaxTokens(|items|));
    if rawResults.Err? {
      return Err(rawResults.error);
    }
    r := ParseClassificationResults(rawResults.value);
  }

  /** The labels a schema permits: its topic titles, then "Other" and "Unsure". */
  function PermittedLabels(schema: map<string, Json>): (r: Result<seq<Json>, Exc>)
    ensures r.Ok? ==> |r.value| >= 2 && r.value[|r.value| - 2..] == [JString("Other"), JString("Unsure")]
    ensures "topics" !in schema ==> r == Err(KeyError("topics"))
  {
    if "topics" !in schema then Err(KeyError("topics"))
    else
      var topics :- Elements(schema["topics"]);
      var titles :- FieldAll(topics, "topic");
      Ok(titles + [JString("Other"), JString("Unsure")])
  }

  /**
   * With a list of topics, the permitted labels exist iff every topic has a
   * title, and are then the titles in topic order before "Other" and "Unsure".
   */
  lemma PermittedLabelsTitles(schema: map<string, Json>)
    requires "topics" in schema && schema["topics"].JArray?
    ensures var topics := schema["topics"].items;
      PermittedLabels(schema).Ok? <==> forall i :: 0 <= i < |topics| ==> Field(topics[i], "topic").Ok?
    ensures var topics, r := schema["topics"].items, PermittedLabels(schema);
      r.Ok? ==>
        && |r.value| == |topics| + 2
        && forall i :: 0 <= i < |topics| ==> Field(topics[i], "topic") == Ok(r.value[i])
  {
    var topics := schema["topics"].items;
    assert Elements(schema["topics"]) == Ok(topics);
    if PermittedLabels(schema).Ok? {
      var titles := FieldAll(topics, "topic").value;
      assert PermittedLabels(schema).value[..|titles|] == titles;
    }
  }

  /** `[label for label in labels if label in permitted_labels]`. */
  function KeepPermitted(labels: seq<string>, permitted: seq<Json>): (r: seq<string>)
    ensures forall l :: l in r <==> l in labels && JString(l) in permitted
  {
    if labels == [] then []
    else
      var rest := KeepPermitted(labels[1..], permitted);
      assert forall l :: l in labels <==> l == labels[0] || l in labels[1..];
      if JString(labels[0]) in permitted then [labels[0]] + rest else rest
  }

  /** Filtering a concatenation filters each part: the kept labels stay in their original order. */
  lemma {:induction false} KeepPermittedConcat(a: seq<string>, b: seq<string>, permitted: seq<Json>)
    ensures KeepPermitted(a + b, permitted) == KeepPermitted(a, permitted) + KeepPermitted(b, permitted)
  {
    if a == [] {
      assert a + b == b;
    } else {
      KeepPermittedConcat(a[1..], b, permitted);
      KeepPermittedConcatStep(a, b, permitted);
    }
  }

  /** The inductive step of `KeepPermittedConcat`: the first label of `a` goes in front either way. */
  lemma KeepPermittedConcatStep(a: seq<string>, b: seq<string>, permitted: seq<Json>)
    requires a != []
    requires KeepPermitted(a[1..] + b, permitted) == KeepPermitted(a[1..], permitted) + KeepPermitted(b, permitted)
    ensures KeepPermitted(a + b, permitted) == KeepPermitted(a, permitted) + KeepPermitted(b, permitted)
  {
    var ra, rb, rab := KeepPermitted(a[1..], permitted), KeepPermitted(b, permitted), KeepPermitted(a[1..] + b, permitted);
    ConcatTail(a, b);
    KeepPermittedHead(a + b, permitted);
    KeepPermittedHead(a, permitted);
    if JString(a[0]) in permitted {
      assert [a[0]] + (ra + rb) == [a[0]] + ra + rb;
    }
  }

  /** The head and tail of a concatenation with a non-empty left part. */
  lemma ConcatTail(a: seq<string>, b: seq<string>)
    requires a != []
    ensures (a + b)[0] == a[0] && (a + b)[1..] == a[1..] + b
  {
  }

  /** A list of permitted labels is kept whole. */
  lemma {:induction false} KeepPermittedAll(labels: seq<string>, permitted: seq<Json>)
    requires forall i :: 0 <= i < |labels| ==> JString(labels[i]) in permitted
    ensures KeepPermitted(labels, permitted) == labels
  {
    if labels != [] {
      KeepPermittedHead(labels, permitted);
      KeepPermittedAll(labels[1..], permitted);
      assert labels == [labels[0]] + labels[1..];
    }
  }

  /** A permitted label is kept as many times as it occurs; any other is dropped; so nothing is added. */
  lemma {:induction false} KeepPermittedCounts(labels: seq<string>, permitted: seq<Json>, l: string)
    ensures multiset(KeepPermitted(labels, permitted))[l] == if JString(l) in permitted then multiset(labels)[l] else 0
    ensures |KeepPermitted(labels, permitted)| <= |labels|
  {
    if labels != [] {
      KeepPermittedHead(labels, permitted);
      KeepPermittedCounts(labels[1..], permitted, l);
      assert labels == [labels[0]] + labels[1..];
    }
  }

  /** One step of the filter: the first label, if permitted, then the filtered rest. */
  lemma KeepPermittedHead(labels: seq<string>, permitted: seq<Json>)
    requires labels != []
    ensures KeepPermitted(labels, permitted)
      == (if JString(labels[0]) in permitted then [labels[0]] else []) + KeepPermitted(labels[1..], permitted)
  {
  }

  /**
   * The filtering loop of `classify_and_store_results`: each result keeps
   * only its permitted labels, everything else unchanged.
   */
  method FilterResults(results: seq<ClassificationResult>, permitted: seq<Json>) returns (filtered: seq<ClassificationResult>)
    ensures |filtered| == |results|
    ensures forall i :: 0 <= i < |results| ==>
      filtered[i] == results[i].(labels := KeepPermitted(results[i].labels, permitted))
  {
    filtered := results;
    for i := 0 to |results|
      invariant |filtered| == |results|
      invariant forall k :: 0 <= k < i ==> filtered[k] == results[k].(labels := KeepPermitted(results[k].labels, permitted))
      invariant forall k :: i <= k < |results| ==> filtered[k] == results[k]
    {
      filtered := filtered[i := filtered[i].(labels := KeepPermitted(filtered[i].labels, permitted))];
    }
  }

  /** How the results are written to the bucket. */
  function ResultJson(r: ClassificationResult): Json {
    JObject(map["id" := r.id, "text" := r.text, "labels" := StringsJson(r.labels)])
  }

  function ResultsJson(results: seq<ClassificationResult>): Json {
    JArray(seq(|results|, i requires 0 <= i < |results| => ResultJson(results[i])))
  }

  /** A JSON list of strings, as a label list. */
  function JsonStrings(items: seq<Json>): (r: Option<seq<string>>)
    ensures r.Some? <==> forall i :: 0 <= i < |items| ==> items[i].JString?
    ensures r.Some? ==> |r.value| == |items| && forall i :: 0 <= i < |items| ==> items[i] == JString(r.value[i])
  {
    if items == [] then Some([])
    else if !items[0].JString? then None
    else match JsonStrings(items[1..])
      case None => None
      case Some(rest) => Some([items[0].s] + rest)
  }

  /** One entry of a `classification_results` list: a dict with an id, a text and a list of string labels. */
  function ResultOfJson(j: Json): Option<ClassificationResult> {
    if j.JObject? && "id" in j.fields && "text" in j.fields && "labels" in j.fields && j.fields["labels"].JArray? then
      match JsonStrings(j.fields["labels"].items)
      case None => None
      case Some(labels) => Some(ClassificationResult(j.fields["id"], j.fields["text"], labels))
    else None
  }

  /** A result written to the bucket reads back as itself. */
  lemma ResultOfResultJson(c: ClassificationResult)
    ensures ResultOfJson(ResultJson(c)) == Some(c)
  {
    var items := StringsJson(c.labels).items;
    var labels := JsonStrings(items);
    assert labels.Some?;
    assert labels.value == c.labels;
  }

  /**
   * The `classification_results` of an incoming `result`: absent gives the
   * field's default, the empty list; otherwise it must be a list of entries.
   */
  function IncomingResults(resultData: Body): (r: Result<seq<ClassificationResult>, Exc>)
    ensures "classification_results" !in resultData ==> r == Ok([])
    ensures r.Err? ==> r.error == ValidationError("classification_results")
    ensures "classification_results" in resultData ==>
      (r.Ok? <==> resultData["classification_results"].JArray?
                  && forall i :: 0 <= i < |resultData["classification_results"].items|
                       ==> ResultOfJson(resultData["classification_results"].items[i]).Some?)
    ensures r.Ok? && "classification_results" in resultData ==>
      var items := resultData["classification_results"].items;
      |r.value| == |items| && forall i :: 0 <= i < |items| ==> ResultOfJson(items[i]) == Some(r.value[i])
  {
    if "classification_results" !in resultData then Ok([])
    else
      var results := resultData["classification_results"];
      if !results.JArray? then Err(ValidationError("classification_results"))
      else if forall i :: 0 <= i < |results.items| ==> ResultOfJson(results.items[i]).Some? then
        Ok(seq(|results.items|, i requires 0 <= i < |results.items| => ResultOfJson(results.items[i]).value))
      else Err(ValidationError("classification_results"))
  }

  /** Results as the classifier writes them come back unchanged when they arrive in a message's `result`. */
  lemma IncomingResultsRoundTrip(resultData: Body, results: seq<ClassificationResult>)
    requires "classification_results" in resultData && resultData["classification_results"] == ResultsJson(results)
    ensures IncomingResults(resultData) == Ok(results)
  {
    var items := ResultsJson(results).items;
    forall i | 0 <= i < |items|
      ensures ResultOfJson(items[i]) == Some(results[i])
    {
      ResultOfResultJson(results[i]);
    }
    var r := IncomingResults(resultData);
    assert r.Ok?;
    assert forall i :: 0 <= i < |results| ==> Some(r.value[i]) == ResultOfJson(items[i]) == Some(results[i]);
    assert r.value == results;
  }

  /** Whether any result kept a label; only then are the results stored. */
  predicate AnyLabelled(results: seq<ClassificationResult>) {
    exists i :: 0 <= i < |results| && |results[i].labels| > 0
  }

  /** The object the results of a batch go to. */
  function ResultsFile(schemaId: Json, resultsFileId: string): string {
    PyStr(schemaId) + "/" + resultsFileId + ".json"
  }

  /** The message of the error raised when the LLM's answer does not have one line per item. */
  function CountMismatch(inputLength: nat, outputLength: nat): Exc {
    Raise("Not all items were classified successfully: input length " + IntToString(inputLength)
      + ", output length " + IntToString(outputLength), 502)
  }

  /** One result per item: its id and text, and the labels the LLM gave it. */
  function Combine(ids: seq<Json>, texts: seq<Json>, labels: seq<seq<string>>): (r: seq<ClassificationResult>)
    requires |ids| == |texts| == |labels|
    ensures |r| == |ids|
    ensures forall i :: 0 <= i < |r| ==> r[i] == ClassificationResult(ids[i], texts[i], labels[i])
  {
    seq(|ids|, i requires 0 <= i < |ids| => ClassificationResult(ids[i], texts[i], labels[i]))
  }

  /** The filtered results, as `FilterResults` computes them. */
  function Filtered(results: seq<ClassificationResult>, permitted: seq<Json>): (r: seq<ClassificationResult>)
    ensures |r| == |results|
  {
    seq(|results|, i requires 0 <= i < |results| => results[i].(labels := KeepPermitted(results[i].labels, permitted)))
  }

  /**
   * The labelling half of `classify_and_store_results`, once the schema is
   * loaded: the item texts go to the LLM in the schema's prompt, the answer
   * must have one line per item, and each item keeps its id, its text and
   * the permitted labels of its line.
   */
  function LabelItems(schema: map<string, Json>, items: Json, llm: (string, int) -> Result<string, Exc>)
    : (r: Result<seq<ClassificationResult>, Exc>)
    ensures r.Ok? ==>
      && Elements(items).Ok? && |r.value| == |Elements(items).value| > 0
      && (forall i :: 0 <= i < |r.value| ==>
            && Field(Elements(items).value[i], "id") == Ok(r.value[i].id)
            && Field(Elements(items).value[i], "text") == Ok(r.value[i].text))
    ensures r.Ok? ==>
      && "prompt" in schema && schema["prompt"].JString? && PermittedLabels(schema).Ok?
      && var answers := ClassifyTexts(schema["prompt"].s, FieldAll(Elements(items).value, "text").value, llm);
      && answers.Ok? && |answers.value| == |r.value|
      && forall i :: 0 <= i < |r.value| ==>
           r.value[i].labels == KeepPermitted(answers.value[i], PermittedLabels(schema).value)
    // an answer with a line count other than the item count is a 502
    ensures (Elements(items).Ok? && FieldAll(Elements(items).value, "text").Ok?
             && "prompt" in schema && schema["prompt"].JString?
             && var answers := ClassifyTexts(schema["prompt"].s, FieldAll(Elements(items).value, "text").value, llm);
             answers.Ok? && |answers.value| != |Elements(items).value|)
      ==> r.Err? && r.error.Code() == Some(502)
  {
    var elements :- Elements(items);
    var texts :- FieldAll(elements, "text");
    if "prompt" !in schema then Err(KeyError("prompt"))
    else
      var prompt := schema["prompt"];
      if !prompt.JString? then Err(AttributeError("replace"))
      else
        var labels :- ClassifyTexts(prompt.s, texts, llm);
        if |labels| == 0 || |labels| != |elements| then Err(CountMismatch(|elements|, |labels|))
        else
          var ids :- FieldAll(elements, "id");
          var permitted :- PermittedLabels(schema);
          Ok(Filtered(Combine(ids, texts, labels), permitted))
  }

  /** The bucket after a batch: the results are stored only when some item kept a label. */
  function Stored(objects: Objects, schemaId: Json, resultsFileId: string, results: seq<ClassificationResult>): Objects {
    if AnyLabelled(results) then objects[ResultsFile(schemaId, resultsFileId) := JsonFile(ResultsJson(results))]
    else objects
  }

  /**
   * `classify_and_store_results(schema_id, items)` on the bucket's
   * contents: the results, and the contents afterwards. `llm` answers the
   * task prompt and `resultsFileId` stands for the fresh `uuid4()`.
   */
  function ClassifyOutcome(objects: Objects, schemaId: Json, items: Json, llm: (string, int) -> Result<string, Exc>,
                           resultsFileId: string): (r: Result<(seq<ClassificationResult>, Objects), Exc>)
    ensures SchemaFile(PyStr(schemaId)) !in objects ==> r.Err?
    ensures r.Ok? ==>
      var schema := LoadJson(objects, SchemaFile(PyStr(schemaId)));
      && schema.Ok? && schema.value.JObject? && "schema_name" in schema.value.fields
      && LabelItems(schema.value.fields, items, llm) == Ok(r.value.0)
    ensures r.Ok? ==> r.value.1 == Stored(objects, schemaId, resultsFileId, r.value.0)
    ensures r.Ok? ==> forall key :: key != ResultsFile(schemaId, resultsFileId) ==>
      (key in r.value.1 <==> key in objects) && (key in objects ==> r.value.1[key] == objects[key])
  {
    var schema :- LoadJson(objects, SchemaFile(PyStr(schemaId)));
    if !schema.JObject? then Err(TypeError)
    else if "prompt" !in schema.fields then Err(KeyError("prompt"))
    else if "schema_name" !in schema.fields then Err(KeyError("schema_name"))
    else
      var results :- LabelItems(schema.fields, items, llm);
      Ok((results, Stored(objects, schemaId, resultsFileId, results)))
  }

  /** An LLM answer in the requested format classifies the texts with the label lists it was written from. */
  lemma ClassifyAnswer(promptTemplate: string, texts: seq<Json>, llm: (string, int) -> Result<string, Exc>,
                       lists: seq<seq<string>>)
    requires PlainAnswer(lists)
    requires llm(TaskPrompt(promptTemplate, Texts(texts)), MaxTokens(|texts|)) == Ok(OutputBlock(lists))
    ensures ClassifyTexts(promptTemplate, texts, llm) == Ok(lists)
  {
    ParseOutputBlock(lists);
  }

  /** When every step of `classify_and_store_results` succeeds, the results are the combined, filtered lines. */
  lemma LabelItemsSuccess(schema: map<string, Json>, items: Json, llm: (string, int) -> Result<string, Exc>,
                          elements: seq<Json>, texts: seq<Json>, labels: seq<seq<string>>, ids: seq<Json>, permitted: seq<Json>)
    requires Elements(items) == Ok(elements) && FieldAll(elements, "text") == Ok(texts)
    requires "prompt" in schema && schema["prompt"].JString?
    requires ClassifyTexts(schema["prompt"].s, texts, llm) == Ok(labels)
    requires 0 < |labels| == |elements|
    requires FieldAll(elements, "id") == Ok(ids) && PermittedLabels(schema) == Ok(permitted)
    ensures LabelItems(schema, items, llm) == Ok(Filtered(Combine(ids, texts, labels), permitted))
  {
  }

  /** An answer in the requested format labels the items with its filtered lines. */
  lemma LabelItemsOfAnswer(schema: map<string, Json>, items: seq<Json>, llm: (string, int) -> Result<string, Exc>,
                           lists: seq<seq<string>>)
    requires forall i :: 0 <= i < |items| ==> Field(items[i], "id").Ok? && Field(items[i], "text").Ok?
    requires "prompt" in schema && schema["prompt"].JString?
    requires PermittedLabels(schema).Ok?
    requires PlainAnswer(lists) && |lists| == |items|
    requires llm(TaskPrompt(schema["prompt"].s, Texts(FieldAll(items, "text").value)), MaxTokens(|items|)) == Ok(OutputBlock(lists))
    ensures LabelItems(schema, JArray(items), llm)
      == Ok(Filtered(Combine(FieldAll(items, "id").value, FieldAll(items, "text").value, lists), PermittedLabels(schema).value))
  {
    var texts := FieldAll(items, "text").value;
    ClassifyAnswer(schema["prompt"].s, texts, llm, lists);
    LabelItemsSuccess(schema, JArray(items), llm, items, texts, lists, FieldAll(items, "id").value, PermittedLabels(schema).value);
  }

  /**
   * When the LLM answers in the requested format with one line per item
   * and only permitted labels, every item gets exactly the labels the LLM
   * gave it.
   */
  lemma LabelItemsFaithful(schema: map<string, Json>, items: seq<Json>, llm: (string, int) -> Result<string, Exc>,
                           lists: seq<seq<string>>)
    requires forall i :: 0 <= i < |items| ==> Field(items[i], "id").Ok? && Field(items[i], "text").Ok?
    requires "prompt" in schema && schema["prompt"].JString?
    requires PermittedLabels(schema).Ok?
    requires forall i, j :: 0 <= i < |lists| && 0 <= j < |lists[i]| ==> JString(lists[i][j]) in PermittedLabels(schema).value
    requires PlainAnswer(lists) && |lists| == |items|
    requires llm(TaskPrompt(schema["prompt"].s, Texts(FieldAll(items, "text").value)), MaxTokens(|items|)) == Ok(OutputBlock(lists))
    ensures LabelItems(schema, JArray(items), llm).Ok?
    ensures forall i :: 0 <= i < |items| ==> LabelItems(schema, JArray(items), llm).value[i].labels == lists[i]
  {
    var texts := FieldAll(items, "text").value;
    var ids := FieldAll(items, "id").value;
    var permitted := PermittedLabels(schema).value;
    var results := Filtered(Combine(ids, texts, lists), permitted);
    LabelItemsOfAnswer(schema, items, llm, lists);
    forall i | 0 <= i < |items| ensures results[i].labels == lists[i] {
      assert forall j :: 0 <= j < |lists[i]| ==> JString(lists[i][j]) in permitted;
      KeepPermittedAll(lists[i], permitted);
    }
  }

  /**
   * A batch classified in the requested format with permitted labels
   * carries the LLM's labels item by item and is stored under its results
   * file.
   */
  lemma ClassifyFaithful(objects: Objects, schemaId: Json, items: seq<Json>, llm: (string, int) -> Result<string, Exc>,
                         resultsFileId: string, lists: seq<seq<string>>)
    requires SchemaFile(PyStr(schemaId)) in objects && objects[SchemaFile(PyStr(schemaId))].JsonFile?
    requires var schema := objects[SchemaFile(PyStr(schemaId))].content;
      && schema.JObject? && "schema_name" in schema.fields
      && "prompt" in schema.fields && schema.fields["prompt"].JString?
      && PermittedLabels(schema.fields).Ok?
      && (forall i, j :: 0 <= i < |lists| && 0 <= j < |lists[i]| ==> JString(lists[i][j]) in PermittedLabels(schema.fields).value)
    requires forall i :: 0 <= i < |items| ==> Field(items[i], "id").Ok? && Field(items[i], "text").Ok?
    requires PlainAnswer(lists) && |lists| == |items|
    requires var schema := objects[SchemaFile(PyStr(schemaId))].content;
      llm(TaskPrompt(schema.fields["prompt"].s, Texts(FieldAll(items, "text").value)), MaxTokens(|items|)) == Ok(OutputBlock(lists))
    ensures ClassifyOutcome(objects, schemaId, JArray(items), llm, resultsFileId).Ok?
    ensures var (results, after) := ClassifyOutcome(objects, schemaId, JArray(items), llm, resultsFileId).value;
      && (forall i :: 0 <= i < |items| ==> results[i].labels == lists[i])
      && ResultsFile(schemaId, resultsFileId) in after
      && after[ResultsFile(schemaId, resultsFileId)] == JsonFile(ResultsJson(results))
  {
    var schema := objects[SchemaFile(PyStr(schemaId))].content;
    LabelItemsFaithful(schema.fields, items, llm, lists);
    var results := LabelItems(schema.fields, JArray(items), llm).value;
    assert |results[0].labels| > 0;
    assert AnyLabelled(results);
  }

  /**
   * `classify_and_store_results` from the model's side: the labelling
   * half, as `LabelItems` states it.
   */
  method LabelBatch(schema: map<string, Json>, items: Json, llm: (string, int) -> Result<string, Exc>)
    returns (r: Result<seq<ClassificationResult>, Exc>)
    ensures r == LabelItems(schema, items, llm)
  {
    var elements :- Elements(items);
    var texts :- FieldAll(elements, "text");
    if "prompt" !in schema {
      return Err(KeyError("prompt"));
    }
    var prompt := schema["prompt"];
    if !prompt.JString? {
      return Err(AttributeError("replace"));
    }
    var labels :- Classify(prompt.s, texts, llm);
    if |labels| == 0 || |labels| != |elements| {
      return Err(CountMismatch(|elements|, |labels|));
    }
    var ids :- FieldAll(elements, "id");
    var permitted :- PermittedLabels(schema);
    var combined := Combine(ids, texts, labels);
    var results := FilterResults(combined, permitted);
    assert results == Filtered(combined, permitted);
    LabelItemsSuccess(schema, items, llm, elements, texts, labels, ids, permitted);
    r := Ok(results);
  }


  /**
   * What `Model.__init__` reads from the environment: the batch size limit
   * (`int(...)` of an unset variable is a TypeError, of a non-number a
   * ValueError) and the LLM client.
   */
  function Configure(batchSizeLimit: Option<string>, clientType: Option<string>, modelName: Option<string>)
    : (r: Result<(int, LlmClient), Exc>)
    ensures batchSizeLimit.None? ==> r == Err(TypeError)
    ensures r.Ok? <==> (batchSizeLimit.Some? && ParseInt(batchSizeLimit.value).Some?
                        && GetLlmClient(clientType, modelName).Ok?)
    ensures r.Ok? ==> r.value == (ParseInt(batchSizeLimit.value).value, GetLlmClient(clientType, modelName).value)
  {
    if batchSizeLimit.None? then Err(TypeError)
    else match ParseInt(batchSizeLimit.value)
      case None => Err(ValueError(batchSizeLimit.value))
      case Some(limit) =>
        var client :- GetLlmClient(clientType, modelName);
        Ok((limit, client))
  }

  /** A limit written in decimal and a known client type configure the model with that limit and client. */
  lemma ConfigureOfDecimal(limit: int, modelName: Option<string>)
    ensures Configure(Some(IntToString(limit)), Some("anthropic"), modelName) == Ok((limit, AnthropicClient(modelName)))
    ensures Configure(Some(IntToString(limit)), Some("openrouter"), modelName) == Ok((limit, OpenRouterClient(modelName)))
  {
    ParseIntOfIntToString(limit);
  }

  class ClassifyModel {
    /** The bucket schemas and results are kept in. */
    var bucket: Bucket
    /** `batch_size_limit`, read from the environment. */
    var batchSizeLimit: int
    var llmClient: LlmClient

    constructor (bucket: Bucket, batchSizeLimit: int, llmClient: LlmClient)
      ensures this.bucket == bucket && this.batchSizeLimit == batchSizeLimit && this.llmClient == llmClient
    {
      this.bucket := bucket;
      this.batchSizeLimit := batchSizeLimit;
      this.llmClient := llmClient;
    }

    /** `schema_id_exists(schema_id)`. */
    method SchemaIdExists(schemaId: Json) returns (b: bool)
      modifies bucket`existenceChecks
      ensures b <==> SchemaFile(PyStr(schemaId)) in bucket.objects
      ensures bucket.existenceChecks == old(bucket.existenceChecks) + 1
    {
      b := bucket.FileExists(SchemaFile(PyStr(schemaId)));
    }

    /**
     * `classify_and_store_results(schema_id, items)`: load the schema,
     * classify the item texts, check there is one answer line per item,
     * keep the permitted labels, and store the batch if any label is left.
     */
    method ClassifyAndStoreResults(schemaId: Json, items: Json, llm: (string, int) -> Result<string, Exc>, resultsFileId: string)
      returns (r: Result<seq<ClassificationResult>, Exc>)
      modifies bucket`loads, bucket`objects
      ensures var outcome := ClassifyOutcome(old(bucket.objects), schemaId, items, llm, resultsFileId);
        && (outcome.Err? ==> r == Err(outcome.error) && bucket.objects == old(bucket.objects))
        && (outcome.Ok? ==> r == Ok(outcome.value.0) && bucket.objects == outcome.value.1)
    {
      var loaded := bucket.LoadJsonFile(SchemaFile(PyStr(schemaId)));
      if loaded.Err? {
        return Err(loaded.error);
      }
      var schema := loaded.value;
      if !schema.JObject? {
        return Err(TypeError);
      }
      if "prompt" !in schema.fields {
        return Err(KeyError("prompt"));
      }
      if "schema_name" !in schema.fields {
        return Err(KeyError("schema_name"));
      }
      var results := LabelBatch(schema.fields, items, llm);
      if results.Err? {
        return Err(results.error);
      }
      if AnyLabelled(results.value) {
        bucket.Upload(ResultsFile(schemaId, resultsFileId), ResultsJson(results.value));
      }
      r := results;
    }

    /**
     * `process(message)`: the schema must exist (404) and the batch fit the
     * limit (422); past those checks, a `PrestoBaseException` keeps its code
     * and any other failure becomes a 500. On success the message's result
     * carries the classified items and "success".
     */
    method Process(message: Message, llm: (string, int) -> Result<string, Exc>, resultsFileId: string)
      returns (r: Result<Response, Exc>)
      modifies bucket`existenceChecks, bucket`loads, bucket`objects
      ensures r == ProcessOutcome(old(bucket.objects), batchSizeLimit, message, llm, resultsFileId).0
      ensures bucket.objects == ProcessOutcome(old(bucket.objects), batchSizeLimit, message, llm, resultsFileId).1
    {
      var params := message.body.parameters;
      if params.None? {
        return Err(TypeError);
      }
      if "schema_id" !in params.value {
        return Err(KeyError("schema_id"));
      }
      if "items" !in params.value {
        return Err(KeyError("items"));
      }
      var schemaId, items := params.value["schema_id"], params.value["items"];
      var found := SchemaIdExists(schemaId);
      if !found {
        return Err(Raise("Schema id " + PyStr(schemaId) + " cannot be found", 404));
      }
      var count := LenOf(items);
      if count.Err? {
        return Err(count.error);
      }
      if count.value > batchSizeLimit {
        return Err(Raise("Number of items exceeds batch size limit of " + IntToString(batchSizeLimit), 422));
      }
      var results := ClassifyAndStoreResults(schemaId, items, llm, resultsFileId);
      if results.Err? {
        return Err(Wrapped(results.error));
      }
      r := WithResults(message.body.result, results.value);
    }
  }

  /** What the `except` clause of `process` raises for a failure. */
  function Wrapped(e: Exc): (r: Exc)
    ensures e.Presto? ==> r == e
    ensures !e.Presto? ==> r.Code() == Some(500)
  {
    if e.Presto? then e else Raise("Error classifying items", 500)
  }

  /** Setting `classification_results` and `responseMessage` on the message's result. */
  function WithResults(result: Option<Response>, results: seq<ClassificationResult>): (r: Result<Response, Exc>)
    ensures r.Ok? <==> result.Some? && result.value.ClassyCatBatchClassificationResponse?
    ensures r.Ok? ==> r.value == ClassyCatBatchClassificationResponse(Some("success"), results)
    ensures r.Err? ==> r.error.Code() == Some(500)
  {
    if result.Some? && result.value.ClassyCatBatchClassificationResponse? then
      Ok(result.value.(classificationResults := results, responseMessage := Some("success")))
    else
      Err(Wrapped(if result.None? then AttributeError("classification_results") else ValueError("classification_results")))
  }

  /** The outcome of `process(message)` and the bucket's contents afterwards. */
  function ProcessOutcome(objects: Objects, batchSizeLimit: int, message: Message,
                          llm: (string, int) -> Result<string, Exc>, resultsFileId: string): (r: (Result<Response, Exc>, Objects))
    // the checks before the classification leave the bucket alone
    ensures var params := message.body.parameters;
      (params.None? || "schema_id" !in params.value || "items" !in params.value
       || SchemaFile(PyStr(params.value["schema_id"])) !in objects) ==> r.0.Err? && r.1 == objects
    ensures var params := message.body.parameters;
      (params.Some? && "schema_id" in params.value && "items" in params.value
       && SchemaFile(PyStr(params.value["schema_id"])) !in objects) ==> r.0.Err? && r.0.error.Code() == Some(404)
    ensures var params := message.body.parameters;
      (params.Some? && "schema_id" in params.value && "items" in params.value
       && SchemaFile(PyStr(params.value["schema_id"])) in objects
       && LenOf(params.value["items"]).Ok? && LenOf(params.value["items"]).value > batchSizeLimit)
        ==> r.0.Err? && r.0.error.Code() == Some(422) && r.1 == objects
    // past those checks, a failed classification is re-raised through the `except` clause
    ensures var params := message.body.parameters;
      (params.Some? && "schema_id" in params.value && "items" in params.value
       && SchemaFile(PyStr(params.value["schema_id"])) in objects
       && LenOf(params.value["items"]).Ok? && LenOf(params.value["items"]).value <= batchSizeLimit
       && ClassifyOutcome(objects, params.value["schema_id"], params.value["items"], llm, resultsFileId).Err?)
        ==> r == (Err(Wrapped(ClassifyOutcome(objects, params.value["schema_id"], params.value["items"], llm, resultsFileId).error)), objects)
    // past those checks, a successful classification is put on the message's result, and the stored batch stays
    // stored even when that assignment fails
    ensures var params := message.body.parameters;
      (params.Some? && "schema_id" in params.value && "items" in params.value
       && SchemaFile(PyStr(params.value["schema_id"])) in objects
       && LenOf(params.value["items"]).Ok? && LenOf(params.value["items"]).value <= batchSizeLimit
       && ClassifyOutcome(objects, params.value["schema_id"], params.value["items"], llm, resultsFileId).Ok?)
        ==> var outcome := ClassifyOutcome(objects, params.value["schema_id"], params.value["items"], llm, resultsFileId).value;
            r == (WithResults(message.body.result, outcome.0), outcome.1)
    // a success carries the classified items
    ensures r.0.Ok? ==>
      var params := message.body.parameters.value;
      var outcome := ClassifyOutcome(objects, params["schema_id"], params["items"], llm, resultsFileId);
      && outcome.Ok?
      && r.0.value == ClassyCatBatchClassificationResponse(Some("success"), outcome.value.0)
      && r.1 == outcome.value.1
  {
    var params := message.body.parameters;
    if params.None? then (Err(TypeError), objects)
    else if "schema_id" !in params.value then (Err(KeyError("schema_id")), objects)
    else if "items" !in params.value then (Err(KeyError("items")), objects)
    else
      var schemaId, items := params.value["schema_id"], params.value["items"];
      if SchemaFile(PyStr(schemaId)) !in objects then
        (Err(Raise("Schema id " + PyStr(schemaId) + " cannot be found", 404)), objects)
      else
        match LenOf(items)
        case Err(e) => (Err(e), objects)
        case Ok(n) =>
          if n > batchSizeLimit then
            (Err(Raise("Number of items exceeds batch size limit of " + IntToString(batchSizeLimit), 422)), objects)
          else
            match ClassifyOutcome(objects, schemaId, items, llm, resultsFileId)
            case Err(e) => (Err(Wrapped(e)), objects)
            case Ok((results, after)) => (WithResults(message.body.result, results), after)
  }

  /**
   * A message whose result is a batch response, which is what the classify
   * parser always builds, is answered "success" with the classified items
   * once the checks pass and the classification succeeds; the stored batch
   * is what the classification left in the bucket.
   */
  lemma ProcessAnswersSuccess(objects: Objects, batchSizeLimit: int, message: Message,
                              llm: (string, int) -> Result<string, Exc>, resultsFileId: string)
    requires message.body.result.Some? && message.body.result.value.ClassyCatBatchClassificationResponse?
    requires var params := message.body.parameters;
      && params.Some? && "schema_id" in params.value && "items" in params.value
      && SchemaFile(PyStr(params.value["schema_id"])) in objects
      && LenOf(params.value["items"]).Ok? && LenOf(params.value["items"]).value <= batchSizeLimit
      && ClassifyOutcome(objects, params.value["schema_id"], params.value["items"], llm, resultsFileId).Ok?
    ensures var params := message.body.parameters.value;
      var outcome := ClassifyOutcome(objects, params["schema_id"], params["items"], llm, resultsFileId).value;
      ProcessOutcome(objects, batchSizeLimit, message, llm, resultsFileId)
        == (Ok(ClassyCatBatchClassificationResponse(Some("success"), outcome.0)), outcome.1)
  {
  }

  /**
   * An LLM answer that does not parse (no output block, or an output line
   * without its categories tag) fails the whole batch with a 500 and stores
   * nothing, however well-formed the request.
   */
  lemma UnparsableAnswer(objects: Objects, batchSizeLimit: int, message: Message,
                         llm: (string, int) -> Result<string, Exc>, resultsFileId: string, raw: string)
    requires message.body.parameters.Some?
    requires var params := message.body.parameters.value;
      "schema_id" in params && "items" in params && params["items"].JArray?
      && |params["items"].items| <= batchSizeLimit
    requires var params := message.body.parameters.value;
      forall i :: 0 <= i < |params["items"].items| ==> Field(params["items"].items[i], "text").Ok?
    requires var key := SchemaFile(PyStr(message.body.parameters.value["schema_id"]));
      key in objects && objects[key].JsonFile? && objects[key].content.JObject?
      && "prompt" in objects[key].content.fields && objects[key].content.fields["prompt"].JString?
      && "schema_name" in objects[key].content.fields
    requires var params := message.body.parameters.value;
      var prompt := objects[SchemaFile(PyStr(params["schema_id"]))].content.fields["prompt"].s;
      var texts := FieldAll(params["items"].items, "text").value;
      llm(TaskPrompt(prompt, Texts(texts)), MaxTokens(|texts|)) == Ok(raw)
    requires ParseResults(raw).Err?
    ensures ProcessOutcome(objects, batchSizeLimit, message, llm, resultsFileId) == (Err(Wrapped(IndexError)), objects)
    ensures ProcessOutcome(objects, batchSizeLimit, message, llm, resultsFileId).0.error.Code() == Some(500)
  {
    var params := message.body.parameters.value;
    var schema := objects[SchemaFile(PyStr(params["schema_id"]))].content.fields;
    var items := params["items"];
    assert ClassifyTexts(schema["prompt"].s, FieldAll(items.items, "text").value, llm) == Err(IndexError);
    assert LabelItems(schema, items, llm) == Err(IndexError);
    assert ClassifyOutcome(objects, params["schema_id"], items, llm, resultsFileId) == Err(IndexError);
  }

  const SCHEMA_ID_REQUIRED: string := "schema_id is required as input to classify"
  const ITEMS_REQUIRED: string := "items are required as input to classify"
  const ID_REQUIRED: string := "id is required for each item"
  const TEXT_REQUIRED: string := "text is required for each item"

  /** The check `validate_input` makes of one item. */
  function CheckItem(item: Json): (r: Option<Exc>)
    ensures item.JObject? ==>
      (r.None? <==> "id" in item.fields && item.fields["id"] != JString("")
                    && "text" in item.fields && item.fields["text"] != JString(""))
    // on a dict the id is checked before the text
    ensures item.JObject? && r.Some? ==>
      r == Some(Raise(if "id" !in item.fields || item.fields["id"] == JString("") then ID_REQUIRED else TEXT_REQUIRED, 422))
    ensures r.Some? && r.value.Presto? ==> r.value.Code() == Some(422)
  {
    match item
    case JObject(f) =>
      if "id" !in f || f["id"] == JString("") then Some(Raise(ID_REQUIRED, 422))
      else if "text" !in f || f["text"] == JString("") then Some(Raise(TEXT_REQUIRED, 422))
      else None
    // `"id" in item` is a substring test on a string and a membership test on a list; indexing either by "id" fails
    case JString(s) => if !Contains(s, "id") then Some(Raise(ID_REQUIRED, 422)) else Some(TypeError)
    case JArray(xs) => if JString("id") !in xs then Some(Raise(ID_REQUIRED, 422)) else Some(TypeError)
    case _ => Some(TypeError)
  }

  /** The first failing item's error, in list order. */
  function CheckItems(items: seq<Json>): (r: Option<Exc>)
    ensures r.None? <==> forall i :: 0 <= i < |items| ==> CheckItem(items[i]).None?
  {
    if items == [] then None
    else if CheckItem(items[0]).Some? then CheckItem(items[0])
    else
      assert forall i :: 1 <= i < |items| ==> items[i] == items[1..][i - 1];
      CheckItems(items[1..])
  }

  /**
   * `key not in container`: a key test on a dict, a membership test on a
   * list, a substring test on a string; other values cannot be searched.
   */
  function NotIn(container: Json, key: string): (r: Result<bool, Exc>)
    ensures container.JObject? ==> r == Ok(key !in container.fields)
    ensures r.Ok? <==> container.JObject? || container.JArray? || container.JString?
  {
    match container
    case JObject(f) => Ok(key !in f)
    case JArray(xs) => Ok(JString(key) !in xs)
    case JString(s) => Ok(!Contains(s, key))
    case _ => Err(TypeError)
  }

  /**
   * The check of the items as `for item in items` visits them: a list's
   * elements in order; a string's characters, each a one-character string;
   * a dict's keys, whose order is not modelled.
   */
  function CheckIterated(items: Json): (r: Option<Exc>)
    ensures items.JArray? ==> r == CheckItems(items.items)
  {
    match items
    case JArray(xs) => CheckItems(xs)
    case JString(s) => CheckItems(seq(|s|, i requires 0 <= i < |s| => JString([s[i]])))
    case JObject(f) =>
      if f == map[] then None
      else if forall k :: k in f ==> !Contains(k, "id") then Some(Raise(ID_REQUIRED, 422))
      else Some(TypeError)
    case _ => Some(TypeError)
  }

  /**
   * `validate_input(data)`: a schema id, at least one item, and an id and a
   * text for each item; each missing piece is a 422, checked in that order.
   */
  function ValidateInput(data: Body): (r: Option<Exc>)
    ensures "parameters" !in data ==> r == Some(KeyError("parameters"))
    ensures ("parameters" in data && data["parameters"].JObject?
             && ("schema_id" !in data["parameters"].fields || data["parameters"].fields["schema_id"] == JString("")))
      ==> r == Some(Raise(SCHEMA_ID_REQUIRED, 422))
    ensures ("parameters" in data && data["parameters"].JObject?
             && "schema_id" in data["parameters"].fields && data["parameters"].fields["schema_id"] != JString("")
             && ("items" !in data["parameters"].fields || LenOf(data["parameters"].fields["items"]) == Ok(0)))
      ==> r == Some(Raise(ITEMS_REQUIRED, 422))
    ensures r.None? ==>
      && "parameters" in data && data["parameters"].JObject?
      && var p := data["parameters"].fields;
      && "schema_id" in p && p["schema_id"] != JString("")
      && "items" in p && LenOf(p["items"]).Ok? && LenOf(p["items"]).value > 0
      && (p["items"].JArray? ==> forall i :: 0 <= i < |p["items"].items| ==> CheckItem(p["items"].items[i]).None?)
    // once the schema id and a non-empty list of items are there, the outcome is the items' check
    ensures ("parameters" in data && data["parameters"].JObject?
             && "schema_id" in data["parameters"].fields && data["parameters"].fields["schema_id"] != JString("")
             && "items" in data["parameters"].fields && data["parameters"].fields["items"].JArray?
             && |data["parameters"].fields["items"].items| > 0)
      ==> r == CheckItems(data["parameters"].fields["items"].items)
  {
    if "parameters" !in data then Some(KeyError("parameters"))
    else
      var params := data["parameters"];
      match NotIn(params, "schema_id")
      case Err(e) => Some(e)
      case Ok(missing) =>
        if missing then Some(Raise(SCHEMA_ID_REQUIRED, 422))
        // indexing a list or a string by a key fails
        else if !params.JObject? then Some(TypeError)
        else
          var p := params.fields;
          if p["schema_id"] == JString("") then Some(Raise(SCHEMA_ID_REQUIRED, 422))
          else if "items" !in p then Some(Raise(ITEMS_REQUIRED, 422))
          else match LenOf(p["items"])
            case Err(e) => Some(e)
            case Ok(n) => if n == 0 then Some(Raise(ITEMS_REQUIRED, 422)) else CheckIterated(p["items"])
  }

  /** The items are checked in list order: the outcome is the first failing item's error. */
  lemma {:induction false} FirstFailingItem(items: seq<Json>, k: nat)
    requires k < |items|
    requires forall i :: 0 <= i < k ==> CheckItem(items[i]).None?
    requires CheckItem(items[k]).Some?
    ensures CheckItems(items) == CheckItem(items[k])
    decreases k
  {
    if k > 0 {
      assert CheckItem(items[0]).None?;
      assert forall i :: 0 <= i < k - 1 ==> items[1..][i] == items[i + 1];
      FirstFailingItem(items[1..], k - 1);
    }
  }

  /** An item with an id but no text, after items that all pass, is reported as a missing text. */
  lemma ValidateItemsText(items: seq<Json>, k: nat)
    requires k < |items|
    requires forall i :: 0 <= i < k ==> CheckItem(items[i]).None?
    requires items[k].JObject? && "id" in items[k].fields && items[k].fields["id"] != JString("")
    requires "text" !in items[k].fields || items[k].fields["text"] == JString("")
    ensures CheckItems(items) == Some(Raise(TEXT_REQUIRED, 422))
  {
    FirstFailingItem(items, k);
  }

  /** An item without an id, after items that all pass, is reported as a missing id. */
  lemma ValidateItems(items: seq<Json>, k: nat)
    requires k < |items|
    requires forall i :: 0 <= i < k ==> CheckItem(items[i]).None?
    requires items[k].JObject? && ("id" !in items[k].fields || items[k].fields["id"] == JString(""))
    ensures CheckItems(items) == Some(Raise(ID_REQUIRED, 422))
  {
    FirstFailingItem(items, k);
  }

  /**
   * `parse_input_message(data)`: a `classify` event gets a batch
   * classification response built from the `result` field; any other event
   * type is a 422.
   */
  function ParseInputMessage(data: Body): (r: Result<Option<Response>, Exc>)
    ensures r.Ok? ==> r.value.Some? && r.value.value.ClassyCatBatchClassificationResponse?
    ensures ("parameters" in data && data["parameters"].JObject? && "event_type" in data["parameters"].fields
             && data["parameters"].fields["event_type"] != JString("classify"))
      ==> r.Err? && r.error.Code() == Some(422)
    // a classify event without a result gives an empty batch response with no message
    ensures ("parameters" in data && data["parameters"].JObject? && "event_type" in data["parameters"].fields
             && data["parameters"].fields["event_type"] == JString("classify") && "result" !in data)
      ==> r == Ok(Some(ClassyCatBatchClassificationResponse(None, [])))
    // a classify event whose result is a dict keeps its response message and its classification results
    ensures ("parameters" in data && data["parameters"].JObject? && "event_type" in data["parameters"].fields
             && data["parameters"].fields["event_type"] == JString("classify")
             && "result" in data && data["result"].JObject?)
      ==> r == (match OptionalString(data["result"].fields, "responseMessage")
                case Err(e) => Err(e)
                case Ok(m) =>
                  match IncomingResults(data["result"].fields)
                  case Err(e) => Err(e)
                  case Ok(results) => Ok(Some(ClassyCatBatchClassificationResponse(m, results))))
    ensures r.Ok? <==>
      && "parameters" in data && data["parameters"].JObject? && "event_type" in data["parameters"].fields
      && data["parameters"].fields["event_type"] == JString("classify")
      && ("result" in data ==> data["result"].JObject? && OptionalString(data["result"].fields, "responseMessage").Ok?
                               && IncomingResults(data["result"].fields).Ok?)
  {
    if "parameters" !in data then Err(KeyError("parameters"))
    else if !data["parameters"].JObject? then Err(TypeError)
    else if "event_type" !in data["parameters"].fields then Err(KeyError("event_type"))
    else
      var eventType := data["parameters"].fields["event_type"];
      if eventType == JString("classify") then
        var resultData := GetOr(data, "result", JObject(map[]));
        if !resultData.JObject? then Err(TypeError)
        else
          var responseMessage :- OptionalString(resultData.fields, "responseMessage");
          var results :- IncomingResults(resultData.fields);
          Ok(Some(ClassyCatBatchClassificationResponse(responseMessage, results)))
      else
        Err(Raise("Unknown event type " + PyStr(eventType), 422))
  }
}
