/**
 * The message envelope: `GenericItem`, `Message`, the result shapes, and
 * `parse_input_message`, which checks the envelope, resolves the kind through
 * the registry, runs the kind's validator and parser, and builds the typed
 * `Message`.
 */
module Schemas {
  import opened Wrappers
  import opened Strings
  import opened JsonValues
  import opened BaseException
  import opened Helpers

  /** A decoded JSON object, as a message body or a parameter map. */
  type Body = map<string, Json>

  /** One classified item of a ClassyCat batch. */
  datatype ClassificationResult = ClassificationResult(id: Json, text: Json, labels: seq<string>)

  /** The typed result shapes a message body can carry. */
  datatype Response =
    | MediaResponse(hashValue: Json)
    | VideoResponse(hashValue: Json, folder: Option<string>, filepath: Option<string>)
    | YakeKeywordsResponse(keywords: Json)
    | ClassyCatBatchClassificationResponse(responseMessage: Option<string>, classificationResults: seq<ClassificationResult>)
    | ClassyCatSchemaResponse(responseMessage: Option<string>, schemaId: Json)

  datatype GenericItem = GenericItem(
    id: Json,
    contentHash: Option<string>,
    callbackUrl: Option<string>,
    url: Option<string>,
    text: Option<string>,
    raw: Option<Body>,
    parameters: Option<Body>,
    result: Option<Response>)

  datatype Message = Message(body: GenericItem, modelName: string, retryCount: int)

  /** What a kind contributes to parsing: its `validate_input` and its `parse_input_message`. */
  datatype KindEntry = KindEntry(
    validateInput: Body -> Option<Exc>,
    parseInputMessage: Body -> Result<Option<Response>, Exc>)

  /** Module path -> attribute -> kind entry; this stands in for importing `lib.model.<kind>`. */
  type Registry = map<string, map<string, KindEntry>>

  const MODEL_PREFIX: string := "lib.model."

  /** The fallback result shape chosen from the kind name. */
  datatype ResultType = YakeKeywords | Video | Media

  /** The shape picked by substring match on the kind name; `yake_keywords` is tested before `video`. */
  function ResultTypeFor(modelName: string): (t: ResultType)
    ensures t == YakeKeywords <==> Contains(modelName, "yake_keywords")
    ensures t == Video <==> !Contains(modelName, "yake_keywords") && Contains(modelName, "video")
    ensures t == Media <==> !Contains(modelName, "yake_keywords") && !Contains(modelName, "video")
  {
    if Contains(modelName, "yake_keywords") then YakeKeywords
    else if Contains(modelName, "video") then Video
    else Media
  }

  lemma OccursGivesContains(s: string, sub: string, j: nat)
    requires OccursAt(s, sub, j)
    ensures Contains(s, sub)
  {
  }

  /** The media kind names of the envelope tests get the media shape those tests expect. */
  lemma MediaKindExamples()
    ensures ResultTypeFor("audio.Model") == Media
    ensures ResultTypeFor("image.Model") == Media
    ensures ResultTypeFor("mean_tokens.Model") == Media
  {
    AudioIsMedia();
    ImageIsMedia();
    MeanTokensIsMedia();
  }

  /** `audio.Model` names neither keyword kind, so it falls back to the media shape. */
  lemma AudioIsMedia()
    ensures ResultTypeFor("audio.Model") == Media
  {
    MediaKind("audio.Model");
  }

  /** `image.Model` names neither keyword kind. */
  lemma ImageIsMedia()
    ensures ResultTypeFor("image.Model") == Media
  {
    MediaKind("image.Model");
  }

  /** `mean_tokens.Model` names neither keyword kind. */
  lemma MeanTokensIsMedia()
    ensures ResultTypeFor("mean_tokens.Model") == Media
  {
    MediaKind("mean_tokens.Model");
  }

  /** The video and keyword kind names of the envelope tests get their own shapes. */
  lemma KeywordKindExamples()
    ensures ResultTypeFor("video.Model") == Video
    ensures ResultTypeFor("yake_keywords.Model") == YakeKeywords
    ensures ResultTypeFor("yake_keywords__Model") == YakeKeywords
  {
    VideoKind(".Model");
    YakeKind(".Model");
    YakeKind("__Model");
  }

  /** A kind name without a `y` or a `v` names neither keyword kind. */
  lemma MediaKind(name: string)
    requires 'y' !in name && 'v' !in name
    ensures ResultTypeFor(name) == Media
  {
    AbsentFirstChar(name, "yake_keywords");
    AbsentFirstChar(name, "video");
  }

  /** A kind name starting with `video` and without a `y` takes the video shape. */
  lemma VideoKind(rest: string)
    requires 'y' !in rest
    ensures ResultTypeFor("video" + rest) == Video
  {
    var name := "video" + rest;
    assert 'y' !in name by {
      assert forall i :: 0 <= i < |name| ==> name[i] == if i < 5 then "video"[i] else rest[i - 5];
    }
    AbsentFirstChar(name, "yake_keywords");
    assert name[..5] == "video";
    OccursGivesContains(name, "video", 0);
  }

  /** A kind name starting with `yake_keywords` takes the keywords shape. */
  lemma YakeKind(rest: string)
    ensures ResultTypeFor("yake_keywords" + rest) == YakeKeywords
  {
    var name := "yake_keywords" + rest;
    assert name[..13] == "yake_keywords";
    OccursGivesContains(name, "yake_keywords", 0);
  }

  /** The shape of a response value. */
  function TypeOf(r: Response): Option<ResultType> {
    match r
    case MediaResponse(_) => Some(Media)
    case VideoResponse(_, _, _) => Some(Video)
    case YakeKeywordsResponse(_) => Some(YakeKeywords)
    case _ => None
  }

  /** An `Optional[str]` field: absent or null is None, a string is kept, anything else fails validation. */
  function OptionalString(d: Body, key: string): (r: Result<Option<string>, Exc>)
    ensures key !in d ==> r == Ok(None)
    ensures key in d && d[key].JString? ==> r == Ok(Some(d[key].s))
    ensures key in d && d[key].JNull? ==> r == Ok(None)
    ensures r.Ok? <==> key !in d || d[key].JNull? || d[key].JString?
  {
    if key !in d then Ok(None)
    else match d[key]
      case JNull => Ok(None)
      case JString(s) => Ok(Some(s))
      case _ => Err(ValidationError(key))
  }

  /** An `Optional[Dict] = {}` field: absent gives the empty map, null gives None. */
  function OptionalDict(d: Body, key: string): (r: Result<Option<Body>, Exc>)
    ensures key !in d ==> r == Ok(Some(map[]))
    ensures key in d && d[key].JObject? ==> r == Ok(Some(d[key].fields))
    ensures key in d && d[key].JNull? ==> r == Ok(None)
    ensures r.Ok? <==> key !in d || d[key].JNull? || d[key].JObject?
  {
    if key !in d then Ok(Some(map[]))
    else match d[key]
      case JNull => Ok(None)
      case JObject(m) => Ok(Some(m))
      case _ => Err(ValidationError(key))
  }

  /** `Optional[List[List[Union[str, float]]]]`. */
  predicate KeywordsShape(k: Json) {
    k.JNull? ||
    (k.JArray? && forall i :: 0 <= i < |k.items| ==>
      k.items[i].JArray? && forall e :: e in k.items[i].items ==> e.JString? || e.JFloat? || e.JInt?)
  }

  /** `GenericItem(**body)`: `id` is required; the other fields take their defaults when absent. */
  function MakeGenericItem(body: Body): (r: Result<GenericItem, Exc>)
    ensures "id" !in body ==> r.Err?
    ensures r.Ok? ==> r.value.id == body["id"] && r.value.result.None?
    ensures r.Ok? ==> OptionalString(body, "content_hash") == Ok(r.value.contentHash)
    ensures r.Ok? ==> OptionalString(body, "callback_url") == Ok(r.value.callbackUrl)
    ensures r.Ok? ==> OptionalString(body, "url") == Ok(r.value.url)
    ensures r.Ok? ==> OptionalString(body, "text") == Ok(r.value.text)
    ensures r.Ok? ==> OptionalDict(body, "raw") == Ok(r.value.raw)
    ensures r.Ok? ==> OptionalDict(body, "parameters") == Ok(r.value.parameters)
    // a usable id and optional fields that are absent, null or of their declared type always validate
    ensures r.Ok? <==>
      && "id" in body && (body["id"].JString? || body["id"].JInt? || body["id"].JFloat?)
      && OptionalString(body, "content_hash").Ok? && OptionalString(body, "callback_url").Ok?
      && OptionalString(body, "url").Ok? && OptionalString(body, "text").Ok?
      && OptionalDict(body, "raw").Ok? && OptionalDict(body, "parameters").Ok?
  {
    if "id" !in body || !(body["id"].JString? || body["id"].JInt? || body["id"].JFloat?) then
      Err(ValidationError("id"))
    else
      var contentHash :- OptionalString(body, "content_hash");
      var callbackUrl :- OptionalString(body, "callback_url");
      var url :- OptionalString(body, "url");
      var text :- OptionalString(body, "text");
      var raw :- OptionalDict(body, "raw");
      var parameters :- OptionalDict(body, "parameters");
      Ok(GenericItem(body["id"], contentHash, callbackUrl, url, text, raw, parameters, None))
  }

  /** `YakeKeywordsResponse(**d)`, `VideoResponse(**d)` or `MediaResponse(**d)`; `d` must be a mapping. */
  function MakeResponse(t: ResultType, resultData: Json): (r: Result<Response, Exc>)
    ensures r.Ok? ==> TypeOf(r.value) == Some(t)
    ensures !resultData.JObject? ==> r == Err(TypeError)
  {
    if !resultData.JObject? then Err(TypeError)
    else
      var d := resultData.fields;
      match t
      case Media => Ok(MediaResponse(GetOr(d, "hash_value", JNull)))
      case Video =>
        var folder :- OptionalString(d, "folder");
        var filepath :- OptionalString(d, "filepath");
        Ok(VideoResponse(GetOr(d, "hash_value", JNull), folder, filepath))
      case YakeKeywords =>
        var keywords := GetOr(d, "keywords", JNull);
        if KeywordsShape(keywords) then Ok(YakeKeywordsResponse(keywords)) else Err(ValidationError("keywords"))
  }

  /** The class name a kind name denotes (`__` written for `.`), looked up under `lib.model.`. */
  function ResolveKind(registry: Registry, modelName: Json): Result<KindEntry, Exc> {
    if !modelName.JString? then Err(AttributeError("replace"))
    else GetClass(registry, MODEL_PREFIX, Replace(modelName.s, "__", "."))
  }

  /** The outcome of parsing: the message, and the caller's body map after `result` was deleted from it. */
  datatype Parsed = Parsed(message: Message, bodyAfter: Body)

  /** `parse_input_message(message_data)`. */
  function ParseInputMessage(registry: Registry, messageData: Body): (r: Result<Parsed, Exc>)
    // the envelope keys are checked before anything else
    ensures "body" !in messageData || "model_name" !in messageData ==>
      r.Err? && r.error.Code() == Some(422)
    // a kind that cannot be resolved is reported as 404, naming the model
    ensures ("body" in messageData && "model_name" in messageData && messageData["body"].JObject?
             && ResolveKind(registry, messageData["model_name"]).Err?) ==>
      r == Err(Raise("Error loading model " + PyStr(messageData["model_name"]) + ", model_name is not supported", 404))
      && r.error.Code() == Some(404)
    // the kind's validator runs first; its error is the outcome and no message is built
    ensures ("body" in messageData && "model_name" in messageData && messageData["body"].JObject?
             && ResolveKind(registry, messageData["model_name"]).Ok?
             && ResolveKind(registry, messageData["model_name"]).value.validateInput(messageData["body"].fields).Some?) ==>
      r == Err(ResolveKind(registry, messageData["model_name"]).value.validateInput(messageData["body"].fields).value)
    // on success: the kind name verbatim, no retries yet, `result` deleted from the body, the result set
    ensures r.Ok? ==>
      && "body" in messageData && "model_name" in messageData && messageData["body"].JObject?
      && messageData["model_name"] == JString(r.value.message.modelName)
      && r.value.message.retryCount == 0
      && r.value.bodyAfter == messageData["body"].fields - {"result"}
      && r.value.message.body.result.Some?
      && MakeGenericItem(r.value.bodyAfter) == Ok(r.value.message.body.(result := None))
    // when the kind's parser gives nothing, the result shape follows the kind name
    ensures r.Ok? ==>
      var entry := ResolveKind(registry, messageData["model_name"]).value;
      && entry.validateInput(messageData["body"].fields).None?
      && entry.parseInputMessage(messageData["body"].fields).Ok?
      && (entry.parseInputMessage(messageData["body"].fields).value.Some? ==>
            r.value.message.body.result == entry.parseInputMessage(messageData["body"].fields).value)
      && (entry.parseInputMessage(messageData["body"].fields).value.None? ==>
            TypeOf(r.value.message.body.result.value) == Some(ResultTypeFor(r.value.message.modelName)))
    // a well-formed envelope parses: every step above succeeds, so a message is built
    ensures ("body" in messageData && "model_name" in messageData && messageData["body"].JObject?
             && messageData["model_name"].JString?
             && ResolveKind(registry, messageData["model_name"]).Ok?
             && var entry := ResolveKind(registry, messageData["model_name"]).value;
             var body := messageData["body"].fields;
             && entry.validateInput(body).None?
             && entry.parseInputMessage(body).Ok?
             && (entry.parseInputMessage(body).value.Some?
                 || MakeResponse(ResultTypeFor(messageData["model_name"].s), GetOr(body, "result", JObject(map[]))).Ok?)
             && MakeGenericItem(body - {"result"}).Ok?) ==> r.Ok?
  {
    if "body" !in messageData || "model_name" !in messageData then
      Err(Raise("Invalid message data: message should at minimum include body and model_name", 422))
    else
      var bodyData := messageData["body"];
      var modelName := messageData["model_name"];
      if !bodyData.JObject? then Err(AttributeError("get"))
      else
        var body := bodyData.fields;
        var resultData := GetOr(body, "result", JObject(map[]));
        match ResolveKind(registry, modelName)
        case Err(_) =>
          Err(Raise("Error loading model " + PyStr(modelName) + ", model_name is not supported", 404))
        case Ok(entry) =>
          match entry.validateInput(body)
          case Some(e) => Err(e)
          case None =>
            var parsed :- entry.parseInputMessage(body);
            var resultInstance :-
              if parsed.Some? then Ok(parsed.value) else MakeResponse(ResultTypeFor(modelName.s), resultData);
            var bodyAfter := body - {"result"};
            var item :- MakeGenericItem(bodyAfter);
            Ok(Parsed(Message(item.(result := Some(resultInstance)), modelName.s, 0), bodyAfter))
  }

  /** The `hash_value` of the audio envelope test. */
  const AUDIO_HASH: Json := JArray([JInt(1), JInt(2), JInt(3)])

  /** The body of the audio envelope test. */
  const AUDIO_BODY: Body := map[
    "id" := JString("123"),
    "callback_url" := JString("http://0.0.0.0:80/callback_url"),
    "url" := JString("https://example.com/audio.mp3"),
    "text" := JNull,
    "raw" := JObject(map[]),
    "parameters" := JObject(map[]),
    "result" := JObject(map["hash_value" := AUDIO_HASH])]

  /**
   * The audio message of the envelope tests, for a kind whose validator
   * passes it and whose parser gives no result: it parses into an item
   * carrying a media response built from the `result` mapping.
   */
  lemma AudioMessageParses(registry: Registry, entry: KindEntry)
    requires ResolveKind(registry, JString("audio.Model")) == Ok(entry)
    requires entry.validateInput(AUDIO_BODY).None? && entry.parseInputMessage(AUDIO_BODY) == Ok(None)
    ensures ParseInputMessage(registry, map["body" := JObject(AUDIO_BODY), "model_name" := JString("audio.Model")])
      == Ok(Parsed(
           Message(GenericItem(JString("123"), None, Some("http://0.0.0.0:80/callback_url"),
             Some("https://example.com/audio.mp3"), None, Some(map[]), Some(map[]), Some(MediaResponse(AUDIO_HASH))),
             "audio.Model", 0),
           AUDIO_BODY - {"result"}))
  {
    var md := map["body" := JObject(AUDIO_BODY), "model_name" := JString("audio.Model")];
    assert md["body"] == JObject(AUDIO_BODY) && md["model_name"] == JString("audio.Model");
    AudioIsMedia();
    assert GetOr(AUDIO_BODY, "result", JObject(map[])) == JObject(map["hash_value" := AUDIO_HASH]);
    assert MakeResponse(Media, GetOr(AUDIO_BODY, "result", JObject(map[]))) == Ok(MediaResponse(AUDIO_HASH));
    AudioItem();
    ParseInputMessageFallback(registry, md, entry, "audio.Model", AUDIO_BODY, MediaResponse(AUDIO_HASH),
      GenericItem(JString("123"), None, Some("http://0.0.0.0:80/callback_url"),
        Some("https://example.com/audio.mp3"), None, Some(map[]), Some(map[]), None));
  }

  /** The generic item built from the audio test body, once `result` is deleted. */
  lemma AudioItem()
    ensures MakeGenericItem(AUDIO_BODY - {"result"}) == Ok(GenericItem(JString("123"), None, Some("http://0.0.0.0:80/callback_url"),
      Some("https://example.com/audio.mp3"), None, Some(map[]), Some(map[]), None))
  {
    var b := AUDIO_BODY - {"result"};
    assert "content_hash" !in b;
    assert b["id"] == JString("123") && b["text"] == JNull;
    assert b["callback_url"] == JString("http://0.0.0.0:80/callback_url");
    assert b["url"] == JString("https://example.com/audio.mp3");
    assert b["raw"] == JObject(map[]) && b["parameters"] == JObject(map[]);
  }

  /** A kind whose parser gives nothing: the message carries the fallback response and the item built from the rest of the body. */
  lemma ParseInputMessageFallback(registry: Registry, messageData: Body, entry: KindEntry, name: string, body: Body,
                                  response: Response, item: GenericItem)
    requires "body" in messageData && messageData["body"] == JObject(body)
    requires "model_name" in messageData && messageData["model_name"] == JString(name)
    requires ResolveKind(registry, JString(name)) == Ok(entry)
    requires entry.validateInput(body).None? && entry.parseInputMessage(body) == Ok(None)
    requires MakeResponse(ResultTypeFor(name), GetOr(body, "result", JObject(map[]))) == Ok(response)
    requires MakeGenericItem(body - {"result"}) == Ok(item)
    ensures ParseInputMessage(registry, messageData) == Ok(Parsed(Message(item.(result := Some(response)), name, 0), body - {"result"}))
  {
  }
}
