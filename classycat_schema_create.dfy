/**
 * ClassyCat schema creation: a schema (a name, topics with descriptions,
 * labelled examples and the languages of the items) is turned into an LLM
 * prompt and stored in the output bucket under `<schema id>.json`, with a
 * second object `<schema name>.json` mapping the name to the id.
 */
module ClassyCatSchemaCreate {
  import opened Wrappers
  import opened Strings
  import opened JsonValues
  import opened BaseException
  import opened Buckets

  /** One topic of a taxonomy: its title and what it covers. */
  datatype Topic = Topic(topic: string, description: string)

  /** One labelled example: an item text and the topic titles it belongs to. */
  datatype Example = Example(text: string, labels: seq<string>)

  datatype Schema = Schema(schemaName: string, topics: seq<Topic>, examples: seq<Example>, languages: seq<string>)

  /** The prompt text up to the languages. */
  const PROMPT_HEAD: string := "You are given a list of items in "

  /** The prompt text between the languages and the schema name: the rules and the input/output format. */
  const PROMPT_RULES: string :=
    " to classify. "
    + "Each item can fit into one or multiple categories. "
    + "If an item does not belong to any of the listed categories in the taxonomy, classify it as \U{2018}Other\U{2019}. "
    + "If you are an unsure about an item, classify it as \U{2018}Unsure\U{2019}. "
    + "If an item belongs to multiple categories, separate the categories with a ';'. "
    + "The input and output conform to the following format:\n"
    + "<INPUT>\n<ITEM_0>...</ITEM_0>\n<ITEM_1>...</ITEM_1>\n...\n<ITEM_N>...</ITEM_N>\n</INPUT>\n"
    + "<OUTPUT>\n<CATEGORIES_0>...</CATEGORIES_0>\n<CATEGORIES_1>...</CATEGORIES_1>\n...\n<CATEGORIES_N>...</CATEGORIES_N>\n</OUTPUT>\n\n"
    + "Here is the "

  /** The prompt text between the schema name and the taxonomy. */
  const PROMPT_TAXONOMY: string := " taxonomy with examples for each category included:\n"

  /** The placeholder the classifier later replaces with the items. */
  const ITEMS_PLACEHOLDER: string := "<INSERT_ITEMS_HERE>"

  /** The prompt text after the taxonomy: the slot for the items to classify. */
  const PROMPT_TAIL: string := "\n\nClassify the following items:\n<INPUT>\n" + ITEMS_PLACEHOLDER + "\n</INPUT>"

  /** `base_prompt.format(languages=..., schema_name=..., categories=...)`. */
  function FormatBasePrompt(languages: string, schemaName: string, categories: string): string {
    PROMPT_HEAD + languages + PROMPT_RULES + schemaName + PROMPT_TAXONOMY + categories + PROMPT_TAIL
  }

  /** The languages as English prose: "A", "A and B", or "A, B, and C". */
  function LanguagesText(languages: seq<string>): string {
    if |languages| <= 2 then Join(" and ", languages)
    else Join(", ", languages[..|languages| - 1]) + ", and " + languages[|languages| - 1]
  }

  /** Every language is named in the prose list. */
  lemma LanguagesNamed(languages: seq<string>, i: nat)
    requires i < |languages|
    ensures Contains(LanguagesText(languages), languages[i])
  {
    var n := |languages|;
    if n <= 2 {
      JoinContains(" and ", languages, i);
    } else {
      var init := Join(", ", languages[..n - 1]);
      var last := languages[n - 1];
      assert LanguagesText(languages) == init + ", and " + last;
      if i < n - 1 {
        assert Contains(init, languages[i]) by {
          JoinContains(", ", languages[..n - 1], i);
          assert languages[..n - 1][i] == languages[i];
        }
        ContainsLeft(init, ", and ", languages[i]);
        ContainsLeft(init + ", and ", last, languages[i]);
      } else {
        ContainsSelf(last);
        ContainsRight(init + ", and ", last, last);
      }
    }
  }

  /** Two languages are joined by "and". */
  lemma LanguagesTextTwo()
    ensures LanguagesText(["English", "Spanish"]) == "English and Spanish"
  {
    assert ["English", "Spanish"][1..] == ["Spanish"];
  }

  /** More than two are joined by commas, with ", and" before the last. */
  lemma LanguagesTextFour()
    ensures LanguagesText(["English", "Hindi", "Telugu", "Malayalam"]) == "English, Hindi, Telugu, and Malayalam"
  {
    var four := ["English", "Hindi", "Telugu", "Malayalam"];
    var three := ["English", "Hindi", "Telugu"];
    assert four[..3] == three;
    JoinThree(", ", "English", "Hindi", "Telugu");
  }

  /** Three parts joined by a separator. */
  lemma JoinThree(sep: string, a: string, b: string, c: string)
    ensures Join(sep, [a, b, c]) == a + sep + (b + sep + c)
  {
    assert [b, c][1..] == [c];
    assert Join(sep, [b, c]) == b + sep + c;
    assert [a, b, c][1..] == [b, c];
  }

  /** `<NAME_i>`, with `i` in decimal. */
  function OpenTag(name: string, i: nat): string {
    "<" + name + "_" + NatToString(i) + ">"
  }

  /** `</NAME_i>`. */
  function CloseTag(name: string, i: nat): string {
    "</" + name + "_" + NatToString(i) + ">"
  }

  function TopicLine(i: nat, t: Topic): string {
    OpenTag("TOPIC", i) + "<TITLE>" + t.topic + "</TITLE><DESCRIPTION>" + t.description + "</DESCRIPTION>" + CloseTag("TOPIC", i)
  }

  /** `<ITEM_i>text</ITEM_i>`, the form items take both in the examples and in a classification request. */
  function ItemLine(i: nat, text: string): string {
    OpenTag("ITEM", i) + text + CloseTag("ITEM", i)
  }

  /** `<CATEGORIES_i>a;b;c</CATEGORIES_i>`, the form the LLM answers in. */
  function CategoriesLine(i: nat, labels: seq<string>): string {
    OpenTag("CATEGORIES", i) + Join(";", labels) + CloseTag("CATEGORIES", i)
  }

  function TopicLines(topics: seq<Topic>): seq<string> {
    seq(|topics|, i requires 0 <= i < |topics| => TopicLine(i, topics[i]))
  }

  function ItemLines(texts: seq<string>): seq<string> {
    seq(|texts|, i requires 0 <= i < |texts| => ItemLine(i, texts[i]))
  }

  function CategoriesLines(labels: seq<seq<string>>): seq<string> {
    seq(|labels|, i requires 0 <= i < |labels| => CategoriesLine(i, labels[i]))
  }

  function ExampleTexts(examples: seq<Example>): seq<string> {
    seq(|examples|, i requires 0 <= i < |examples| => examples[i].text)
  }

  function ExampleLabels(examples: seq<Example>): seq<seq<string>> {
    seq(|examples|, i requires 0 <= i < |examples| => examples[i].labels)
  }

  /**
   * The lines of the taxonomy block: the title, one line per topic in
   * order, then the examples as an input block of items and an output
   * block of their categories, numbered alike.
   */
  function PromptCategories(schema: Schema): (r: seq<string>)
    ensures var t, e := |schema.topics|, |schema.examples|;
      && |r| == 11 + t + 2 * e
      && r[0] == "<TAXONOMY>" && r[1] == "<TITLE>" + schema.schemaName + "</TITLE>" && r[2] == "<TOPICS>"
      && (forall i :: 0 <= i < t ==> r[3 + i] == TopicLine(i, schema.topics[i]))
      && r[3 + t] == "</TOPICS>" && r[4 + t] == "<EXAMPLES>" && r[5 + t] == "<INPUT>"
      && (forall i :: 0 <= i < e ==> r[6 + t + i] == ItemLine(i, schema.examples[i].text))
      && r[6 + t + e] == "</INPUT>" && r[7 + t + e] == "<OUTPUT>"
      && (forall i :: 0 <= i < e ==> r[8 + t + e + i] == CategoriesLine(i, schema.examples[i].labels))
      && r[8 + t + 2 * e] == "</OUTPUT>" && r[9 + t + 2 * e] == "</EXAMPLES>" && r[10 + t + 2 * e] == "</TAXONOMY>"
  {
    ["<TAXONOMY>", "<TITLE>" + schema.schemaName + "</TITLE>", "<TOPICS>"]
    + TopicLines(schema.topics)
    + ["</TOPICS>", "<EXAMPLES>", "<INPUT>"]
    + ItemLines(ExampleTexts(schema.examples))
    + ["</INPUT>", "<OUTPUT>"]
    + CategoriesLines(ExampleLabels(schema.examples))
    + ["</OUTPUT>", "</EXAMPLES>", "</TAXONOMY>"]
  }

  /** The prompt stored with a schema. */
  function Prompt(schema: Schema): string {
    FormatBasePrompt(LanguagesText(schema.languages), schema.schemaName, Join("\n", PromptCategories(schema)))
  }

  /**
   * `generate_prompt_from_schema(schema)`: the taxonomy lines are collected
   * one loop per section, joined with newlines and put into the base prompt.
   */
  method GeneratePromptFromSchema(schema: Schema) returns (prompt: string)
    ensures prompt == Prompt(schema)
  {
    var topics, examples := schema.topics, schema.examples;
    var head := ["<TAXONOMY>", "<TITLE>" + schema.schemaName + "</TITLE>", "<TOPICS>"];
    var lines := head;
    for i := 0 to |topics|
      invariant lines == head + TopicLines(topics[..i])
    {
      assert TopicLines(topics[..i + 1]) == TopicLines(topics[..i]) + [TopicLine(i, topics[i])];
      lines := lines + [TopicLine(i, topics[i])];
    }
    assert topics[..|topics|] == topics;
    lines := lines + ["</TOPICS>", "<EXAMPLES>", "<INPUT>"];
    ghost var beforeItems := lines;
    for i := 0 to |examples|
      invariant lines == beforeItems + ItemLines(ExampleTexts(examples[..i]))
    {
      assert ItemLines(ExampleTexts(examples[..i + 1])) == ItemLines(ExampleTexts(examples[..i])) + [ItemLine(i, examples[i].text)];
      lines := lines + [ItemLine(i, examples[i].text)];
    }
    assert examples[..|examples|] == examples;
    lines := lines + ["</INPUT>", "<OUTPUT>"];
    ghost var beforeCategories := lines;
    for i := 0 to |examples|
      invariant lines == beforeCategories + CategoriesLines(ExampleLabels(examples[..i]))
    {
      assert CategoriesLines(ExampleLabels(examples[..i + 1])) == CategoriesLines(ExampleLabels(examples[..i])) + [CategoriesLine(i, examples[i].labels)];
      lines := lines + [CategoriesLine(i, examples[i].labels)];
    }
    lines := lines + ["</OUTPUT>", "</EXAMPLES>"];
    lines := lines + ["</TAXONOMY>"];
    assert lines == PromptCategories(schema);
    prompt := FormatBasePrompt(LanguagesText(schema.languages), schema.schemaName, Join("\n", lines));
  }

  /** Whatever occurs in the languages, the schema name or the taxonomy block occurs in the prompt. */
  lemma InPrompt(languages: string, schemaName: string, categories: string, x: string)
    requires Contains(languages, x) || Contains(schemaName, x) || Contains(categories, x)
    ensures Contains(FormatBasePrompt(languages, schemaName, categories), x)
  {
    var a := PROMPT_HEAD + languages;
    var b := a + PROMPT_RULES + schemaName;
    var c := b + PROMPT_TAXONOMY + categories;
    if Contains(categories, x) {
      ContainsRight(b + PROMPT_TAXONOMY, categories, x);
    } else {
      if Contains(schemaName, x) {
        ContainsRight(a + PROMPT_RULES, schemaName, x);
      } else {
        ContainsRight(PROMPT_HEAD, languages, x);
        ContainsLeft(a, PROMPT_RULES, x);
        ContainsLeft(a + PROMPT_RULES, schemaName, x);
      }
      ContainsLeft(b, PROMPT_TAXONOMY, x);
      ContainsLeft(b + PROMPT_TAXONOMY, categories, x);
    }
    ContainsLeft(c, PROMPT_TAIL, x);
  }

  /** A piece of one line of the taxonomy block shows up in the prompt. */
  lemma CategoriesInPrompt(schema: Schema, line: nat, x: string)
    requires line < |PromptCategories(schema)| && Contains(PromptCategories(schema)[line], x)
    ensures Contains(Prompt(schema), x)
  {
    var cats := PromptCategories(schema);
    JoinContains("\n", cats, line);
    ContainsTransitive(Join("\n", cats), cats[line], x);
    InPrompt(LanguagesText(schema.languages), schema.schemaName, Join("\n", cats), x);
  }

  /** A topic's title and description show up in its line. */
  lemma TopicLineMentions(i: nat, t: Topic)
    ensures Contains(TopicLine(i, t), t.topic) && Contains(TopicLine(i, t), t.description)
  {
    var a := OpenTag("TOPIC", i) + "<TITLE>";
    var b := a + t.topic + "</TITLE><DESCRIPTION>";
    var c := b + t.description + "</DESCRIPTION>";
    ContainsSelf(t.topic);
    ContainsRight(a, t.topic, t.topic);
    ContainsLeft(a + t.topic, "</TITLE><DESCRIPTION>", t.topic);
    ContainsLeft(b, t.description, t.topic);
    ContainsLeft(b + t.description, "</DESCRIPTION>", t.topic);
    ContainsLeft(c, CloseTag("TOPIC", i), t.topic);
    ContainsSelf(t.description);
    ContainsRight(b, t.description, t.description);
    ContainsLeft(b + t.description, "</DESCRIPTION>", t.description);
    ContainsLeft(c, CloseTag("TOPIC", i), t.description);
  }

  /** The text between the tags of a line shows up in it. */
  lemma TaggedMentions(open: string, middle: string, close: string, x: string)
    requires Contains(middle, x)
    ensures Contains(open + middle + close, x)
  {
    ContainsRight(open, middle, x);
    ContainsLeft(open + middle, close, x);
  }

  /** A topic's title and description show up in the prompt. */
  lemma PromptNamesTopic(schema: Schema, i: nat)
    requires i < |schema.topics|
    ensures Contains(Prompt(schema), schema.topics[i].topic) && Contains(Prompt(schema), schema.topics[i].description)
  {
    TopicLineMentions(i, schema.topics[i]);
    CategoriesInPrompt(schema, 3 + i, schema.topics[i].topic);
    CategoriesInPrompt(schema, 3 + i, schema.topics[i].description);
  }

  /** An example's text shows up in the prompt. */
  lemma PromptNamesExample(schema: Schema, i: nat)
    requires i < |schema.examples|
    ensures Contains(Prompt(schema), schema.examples[i].text)
  {
    var text := schema.examples[i].text;
    ContainsSelf(text);
    TaggedMentions(OpenTag("ITEM", i), text, CloseTag("ITEM", i), text);
    CategoriesInPrompt(schema, 6 + |schema.topics| + i, text);
  }

  /** Each label of an example shows up in the prompt. */
  lemma PromptNamesLabel(schema: Schema, i: nat, j: nat)
    requires i < |schema.examples| && j < |schema.examples[i].labels|
    ensures Contains(Prompt(schema), schema.examples[i].labels[j])
  {
    var labels := schema.examples[i].labels;
    JoinContains(";", labels, j);
    TaggedMentions(OpenTag("CATEGORIES", i), Join(";", labels), CloseTag("CATEGORIES", i), labels[j]);
    CategoriesInPrompt(schema, 8 + |schema.topics| + |schema.examples| + i, labels[j]);
  }

  /**
   * The prompt names every language, the schema, every topic's title and
   * description, and every example's text and labels.
   */
  lemma PromptMentions(schema: Schema)
    ensures forall i :: 0 <= i < |schema.languages| ==> Contains(Prompt(schema), schema.languages[i])
    ensures Contains(Prompt(schema), schema.schemaName)
    ensures forall i :: 0 <= i < |schema.topics| ==>
      Contains(Prompt(schema), schema.topics[i].topic) && Contains(Prompt(schema), schema.topics[i].description)
    ensures forall i :: 0 <= i < |schema.examples| ==> Contains(Prompt(schema), schema.examples[i].text)
    ensures forall i, j :: 0 <= i < |schema.examples| && 0 <= j < |schema.examples[i].labels| ==>
      Contains(Prompt(schema), schema.examples[i].labels[j])
  {
    var langs := LanguagesText(schema.languages);
    var name := schema.schemaName;
    var cats := Join("\n", PromptCategories(schema));
    forall i | 0 <= i < |schema.languages|
      ensures Contains(Prompt(schema), schema.languages[i])
    {
      LanguagesNamed(schema.languages, i);
      InPrompt(langs, name, cats, schema.languages[i]);
    }
    ContainsSelf(name);
    InPrompt(langs, name, cats, name);
    forall i | 0 <= i < |schema.topics|
      ensures Contains(Prompt(schema), schema.topics[i].topic) && Contains(Prompt(schema), schema.topics[i].description)
    {
      PromptNamesTopic(schema, i);
    }
    forall i | 0 <= i < |schema.examples|
      ensures Contains(Prompt(schema), schema.examples[i].text)
    {
      PromptNamesExample(schema, i);
    }
    forall i, j | 0 <= i < |schema.examples| && 0 <= j < |schema.examples[i].labels|
      ensures Contains(Prompt(schema), schema.examples[i].labels[j])
    {
      PromptNamesLabel(schema, i, j);
    }
  }

  /** The prompt ends with the input block whose placeholder the classifier fills in. */
  lemma PromptEndsWithItemsSlot(schema: Schema)
    ensures EndsWith(Prompt(schema), "<INPUT>\n" + ITEMS_PLACEHOLDER + "\n</INPUT>")
    ensures Contains(Prompt(schema), ITEMS_PLACEHOLDER)
  {
    var body := PROMPT_HEAD + LanguagesText(schema.languages) + PROMPT_RULES + schema.schemaName
      + PROMPT_TAXONOMY + Join("\n", PromptCategories(schema));
    TailEndsWithItemsSlot(body);
  }

  /** Whatever precedes the tail, the text ends with the items slot and holds the placeholder. */
  lemma TailEndsWithItemsSlot(body: string)
    ensures EndsWith(body + PROMPT_TAIL, "<INPUT>\n" + ITEMS_PLACEHOLDER + "\n</INPUT>")
    ensures Contains(body + PROMPT_TAIL, ITEMS_PLACEHOLDER)
  {
    var slot := "<INPUT>\n" + ITEMS_PLACEHOLDER + "\n</INPUT>";
    var front := "\n\nClassify the following items:\n";
    TailSlot();
    assert body + PROMPT_TAIL == (body + front) + slot;
    ContainsSelf(ITEMS_PLACEHOLDER);
    ContainsExtend("<INPUT>\n", ITEMS_PLACEHOLDER, "\n</INPUT>", ITEMS_PLACEHOLDER);
    ContainsRight(body + front, slot, ITEMS_PLACEHOLDER);
  }

  /** The prompt's tail ends with the items slot. */
  lemma TailSlot()
    ensures PROMPT_TAIL == "\n\nClassify the following items:\n" + ("<INPUT>\n" + ITEMS_PLACEHOLDER + "\n</INPUT>")
  {
    assert "\n\nClassify the following items:\n<INPUT>\n" == "\n\nClassify the following items:\n" + "<INPUT>\n";
  }


  /** How a topic, an example and a schema are written to the bucket. */
  function TopicJson(t: Topic): Json {
    JObject(map["topic" := JString(t.topic), "description" := JString(t.description)])
  }

  function StringsJson(ss: seq<string>): Json {
    JArray(seq(|ss|, i requires 0 <= i < |ss| => JString(ss[i])))
  }

  function ExampleJson(e: Example): Json {
    JObject(map["text" := JString(e.text), "labels" := StringsJson(e.labels)])
  }

  function SchemaJson(schema: Schema, schemaId: string, prompt: string): Json {
    JObject(map[
      "schema_id" := JString(schemaId),
      "schema_name" := JString(schema.schemaName),
      "topics" := JArray(seq(|schema.topics|, i requires 0 <= i < |schema.topics| => TopicJson(schema.topics[i]))),
      "examples" := JArray(seq(|schema.examples|, i requires 0 <= i < |schema.examples| => ExampleJson(schema.examples[i]))),
      "languages" := StringsJson(schema.languages),
      "prompt" := JString(prompt)])
  }

  /** The object holding the schema, and the one mapping the schema name to its id. */
  function SchemaFile(schemaId: string): string { schemaId + ".json" }
  function NameFile(schemaName: string): string { schemaName + ".json" }

  /** The bucket after a schema is created: the schema under its id, then the name -> id mapping. */
  function Created(objects: Objects, schema: Schema, schemaId: string): (r: Objects)
    ensures NameFile(schema.schemaName) in r
      && r[NameFile(schema.schemaName)] == JsonFile(JObject(map["schema_id" := JString(schemaId)]))
    ensures SchemaFile(schemaId) != NameFile(schema.schemaName) ==>
      SchemaFile(schemaId) in r && r[SchemaFile(schemaId)] == JsonFile(SchemaJson(schema, schemaId, Prompt(schema)))
    ensures forall k :: k != SchemaFile(schemaId) && k != NameFile(schema.schemaName) ==>
      (k in r <==> k in objects) && (k in r ==> r[k] == objects[k])
  {
    objects[SchemaFile(schemaId) := JsonFile(SchemaJson(schema, schemaId, Prompt(schema)))]
           [NameFile(schema.schemaName) := JsonFile(JObject(map["schema_id" := JString(schemaId)]))]
  }

  /** `schema_name_exists(schema_name, ...)`: whether the name's mapping object is there. */
  function SchemaNameExists(objects: Objects, schemaName: string): (b: bool)
    ensures b <==> NameFile(schemaName) in objects
  {
    NameFile(schemaName) in objects
  }

  /** After a creation the name is taken, whatever the bucket held before. */
  lemma CreatedNameExists(objects: Objects, schema: Schema, schemaId: string)
    ensures SchemaNameExists(Created(objects, schema, schemaId), schema.schemaName)
  {
  }

  /**
   * `create_schema(schema_name, topics, examples, languages)`: `schemaId`
   * stands for the fresh `uuid4()`. The schema, with its prompt, goes to
   * `<id>.json` and the mapping to `<name>.json`; the id is returned.
   */
  method CreateSchema(bucket: Bucket, schema: Schema, schemaId: string) returns (id: string)
    modifies bucket`objects
    ensures id == schemaId
    ensures bucket.objects == Created(old(bucket.objects), schema, schemaId)
  {
    id := schemaId;
    var prompt := GeneratePromptFromSchema(schema);
    bucket.Upload(SchemaFile(schemaId), SchemaJson(schema, schemaId, prompt));
    bucket.Upload(NameFile(schema.schemaName), JObject(map["schema_id" := JString(schemaId)]));
  }

  /** A parameter that must be a non-empty list. */
  predicate NonEmptyList(j: Json) {
    j.JArray? && |j.items| > 0
  }

  /** The check `verify_schema_parameters` makes of one topic. */
  function CheckTopic(topic: Json): (r: Option<Exc>)
    ensures !topic.JObject? ==> r == Some(TypeError)
    ensures topic.JObject? ==>
      (r.None? <==> "description" in topic.fields && topic.fields["description"].JString? && topic.fields["description"].s != "")
    ensures topic.JObject? && r.Some? && "topic" !in topic.fields ==> r == Some(KeyError("topic"))
  {
    if !topic.JObject? then
      // either the membership test or the indexing fails on anything but a dict
      Some(TypeError)
    else
      var d := topic.fields;
      if "description" in d && d["description"].JString? && d["description"].s != "" then None
      else if "topic" !in d then Some(KeyError("topic"))
      else Some(ValueError("Description for topic " + PyStr(d["topic"]) + " is invalid. It must be a non-empty string"))
  }

  /** The first failing topic's error, checking in list order. */
  function CheckTopics(topics: seq<Json>): (r: Option<Exc>)
    ensures r.None? <==> forall i :: 0 <= i < |topics| ==> CheckTopic(topics[i]).None?
    ensures r.Some? ==> exists i :: 0 <= i < |topics| && r == CheckTopic(topics[i]) && forall j :: 0 <= j < i ==> CheckTopic(topics[j]).None?
  {
    if topics == [] then None
    else if CheckTopic(topics[0]).Some? then
      CheckTopic(topics[0])
    else
      var r := CheckTopics(topics[1..]);
      if r.Some? then
        var i :| 0 <= i < |topics[1..]| && r == CheckTopic(topics[1..][i]) && forall j :: 0 <= j < i ==> CheckTopic(topics[1..][j]).None?;
        assert r == CheckTopic(topics[i + 1]);
        r
      else r
  }

  const SCHEMA_NAME_INVALID: string := "schema_name is invalid. It must be a non-empty string"
  const TOPICS_INVALID: string := "topics is invalid. It must be a non-empty list of dictionaries"
  const EXAMPLES_INVALID: string := "examples is invalid. It must be a non-empty list of dictionaries containing 'text' and 'labels' keys"
  const LANGUAGES_INVALID: string := "languages is invalid. It must be a non-empty string list of languages"

  /**
   * `verify_schema_parameters(schema_name, topics, examples, languages)`:
   * the name, the topics list, each topic, the examples list and the
   * languages list are checked in that order; the first failure is raised.
   */
  function VerifySchemaParameters(schemaName: Json, topics: Json, examples: Json, languages: Json): (r: Option<Exc>)
    ensures r.None? <==>
      && schemaName.JString? && schemaName.s != ""
      && NonEmptyList(topics) && (forall i :: 0 <= i < |topics.items| ==> CheckTopic(topics.items[i]).None?)
      && NonEmptyList(examples) && NonEmptyList(languages)
    ensures !(schemaName.JString? && schemaName.s != "") ==> r == Some(ValueError(SCHEMA_NAME_INVALID))
    ensures schemaName.JString? && schemaName.s != "" && !NonEmptyList(topics) ==> r == Some(ValueError(TOPICS_INVALID))
    ensures (schemaName.JString? && schemaName.s != "" && NonEmptyList(topics) && CheckTopics(topics.items).None?
             && !NonEmptyList(examples)) ==> r == Some(ValueError(EXAMPLES_INVALID))
    ensures (schemaName.JString? && schemaName.s != "" && NonEmptyList(topics) && CheckTopics(topics.items).Some?)
            ==> r == CheckTopics(topics.items)
    ensures (schemaName.JString? && schemaName.s != "" && NonEmptyList(topics) && CheckTopics(topics.items).None?
             && NonEmptyList(examples) && !NonEmptyList(languages)) ==> r == Some(ValueError(LANGUAGES_INVALID))
  {
    if !(schemaName.JString? && schemaName.s != "") then Some(ValueError(SCHEMA_NAME_INVALID))
    else if !NonEmptyList(topics) then Some(ValueError(TOPICS_INVALID))
    else if CheckTopics(topics.items).Some? then CheckTopics(topics.items)
    else if !NonEmptyList(examples) then Some(ValueError(EXAMPLES_INVALID))
    else if !NonEmptyList(languages) then Some(ValueError(LANGUAGES_INVALID))
    else None
  }

  /** The parameters of the first test schema pass; an empty topic list is the first thing rejected after the name. */
  lemma VerifyExamples()
    ensures VerifySchemaParameters(JString("Election"),
      JArray([JObject(map["topic" := JString("Politics"), "description" := JString("Political claims.")])]),
      JArray([JObject(map["text" := JString("Some item"), "labels" := JArray([JString("Politics")])])]),
      JArray([JString("English")])).None?
    ensures VerifySchemaParameters(JString("Election"), JArray([]), JArray([]), JArray([])) == Some(ValueError(TOPICS_INVALID))
    ensures VerifySchemaParameters(JString(""), JArray([]), JArray([]), JArray([])) == Some(ValueError(SCHEMA_NAME_INVALID))
  {
  }
}
