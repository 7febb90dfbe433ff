/**
 * The ClassyCat entry point: `process(message)` looks at the message's
 * `event_type` parameter and hands the message to the classify model or the
 * schema lookup model; an unknown event type is answered in the message's
 * own result.
 */
module ClassyCat {
  import opened Wrappers
  import opened JsonValues
  import opened BaseException
  import opened Schemas
  import opened Buckets
  import opened ClassyCatSchemaCreate
  import opened ClassyCatSchemaLookup
  import opened ClassyCatClassify

  /** The environment the classify model is built from each time it is dispatched to. */
  datatype ClassifySettings = ClassifySettings(batchSizeLimit: Option<string>, clientType: Option<string>, modelName: Option<string>)

  /** The answer to an unknown event type: the message's own result, carrying the complaint. */
  function UnknownEvent(result: Option<Response>, eventType: Json): (r: Result<Response, Exc>)
    ensures r.Ok? <==> result.Some? && (result.value.ClassyCatBatchClassificationResponse? || result.value.ClassyCatSchemaResponse?)
    // the same result, with only its message changed
    ensures r.Ok? && result.value.ClassyCatBatchClassificationResponse? ==>
      r.value == ClassyCatBatchClassificationResponse(Some("Unknown event type " + PyStr(eventType)),
                                                      result.value.classificationResults)
    ensures r.Ok? && result.value.ClassyCatSchemaResponse? ==>
      r.value == ClassyCatSchemaResponse(Some("Unknown event type " + PyStr(eventType)), result.value.schemaId)
  {
    if result.None? then Err(AttributeError("responseMessage"))
    else match result.value
      case ClassyCatBatchClassificationResponse(_, results) =>
        Ok(ClassyCatBatchClassificationResponse(Some("Unknown event type " + PyStr(eventType)), results))
      case ClassyCatSchemaResponse(_, schemaId) =>
        Ok(ClassyCatSchemaResponse(Some("Unknown event type " + PyStr(eventType)), schemaId))
      // the other result shapes have no `responseMessage` field to assign
      case _ => Err(ValueError("responseMessage"))
  }

  /** The outcome of `process(message)` and the bucket's contents afterwards. */
  function DispatchOutcome(objects: Objects, settings: ClassifySettings, message: Message,
                           llm: (string, int) -> Result<string, Exc>, resultsFileId: string): (r: (Result<Response, Exc>, Objects))
    ensures message.body.parameters.None? ==> r == (Err(TypeError), objects)
    ensures message.body.parameters.Some? && "event_type" !in message.body.parameters.value ==>
      r == (Err(KeyError("event_type")), objects)
    ensures (message.body.parameters.Some? && "event_type" in message.body.parameters.value
             && message.body.parameters.value["event_type"] == JString("classify")
             && Configure(settings.batchSizeLimit, settings.clientType, settings.modelName).Ok?)
      ==> r == ProcessOutcome(objects, Configure(settings.batchSizeLimit, settings.clientType, settings.modelName).value.0,
                              message, llm, resultsFileId)
    ensures (message.body.parameters.Some? && "event_type" in message.body.parameters.value
             && message.body.parameters.value["event_type"] == JString("schema_lookup"))
      ==> r == (LookupOutcome(objects, message), objects)
    // only the classify model writes to the bucket
    ensures r.1 != objects ==>
      message.body.parameters.Some? && message.body.parameters.value["event_type"] == JString("classify")
    ensures (message.body.parameters.Some? && "event_type" in message.body.parameters.value
             && message.body.parameters.value["event_type"] !in {JString("classify"), JString("schema_lookup"), JString("schema_create")})
      ==> r == (UnknownEvent(message.body.result, message.body.parameters.value["event_type"]), objects)
  {
    if message.body.parameters.None? then (Err(TypeError), objects)
    else if "event_type" !in message.body.parameters.value then (Err(KeyError("event_type")), objects)
    else
      var eventType := message.body.parameters.value["event_type"];
      if eventType == JString("classify") then
        match Configure(settings.batchSizeLimit, settings.clientType, settings.modelName)
        case Err(e) => (Err(e), objects)
        case Ok((limit, _)) => ProcessOutcome(objects, limit, message, llm, resultsFileId)
      else if eventType == JString("schema_lookup") then (LookupOutcome(objects, message), objects)
      // the schema creation model's `process` takes no message
      else if eventType == JString("schema_create") then (Err(TypeError), objects)
      else (UnknownEvent(message.body.result, eventType), objects)
  }

  /**
   * A lookup dispatched by event type, after a schema was created, answers
   * with the created schema's id.
   */
  lemma DispatchLookupAfterCreate(objects: Objects, settings: ClassifySettings, schema: Schema, schemaId: string,
                                  message: Message, llm: (string, int) -> Result<string, Exc>, resultsFileId: string)
    requires message.body.parameters.Some?
    requires "event_type" in message.body.parameters.value
    requires message.body.parameters.value["event_type"] == JString("schema_lookup")
    requires "schema_name" in message.body.parameters.value
    requires message.body.parameters.value["schema_name"] == JString(schema.schemaName)
    requires message.body.result.Some? && message.body.result.value.ClassyCatSchemaResponse?
    ensures DispatchOutcome(Created(objects, schema, schemaId), settings, message, llm, resultsFileId).0
      == Ok(message.body.result.value.(responseMessage := Some("success"), schemaId := JString(schemaId)))
  {
    LookupAfterCreate(objects, schema, schemaId, message);
  }

  class ClassyCatModel {
    /** The bucket the ClassyCat models share. */
    var bucket: Bucket
    /** The environment the classify model reads when it is built. */
    var settings: ClassifySettings

    constructor (bucket: Bucket, settings: ClassifySettings)
      ensures this.bucket == bucket && this.settings == settings
    {
      this.bucket := bucket;
      this.settings := settings;
    }

    /** `process(message)`: dispatch on the event type. */
    method Process(message: Message, llm: (string, int) -> Result<string, Exc>, resultsFileId: string)
      returns (r: Result<Response, Exc>)
      modifies bucket`existenceChecks, bucket`loads, bucket`objects
      ensures r == DispatchOutcome(old(bucket.objects), settings, message, llm, resultsFileId).0
      ensures bucket.objects == DispatchOutcome(old(bucket.objects), settings, message, llm, resultsFileId).1
    {
      var params := message.body.parameters;
      if params.None? {
        return Err(TypeError);
      }
      if "event_type" !in params.value {
        return Err(KeyError("event_type"));
      }
      var eventType := params.value["event_type"];
      if eventType == JString("classify") {
        var config := Configure(settings.batchSizeLimit, settings.clientType, settings.modelName);
        if config.Err? {
          return Err(config.error);
        }
        var classifier := new ClassifyModel(bucket, config.value.0, config.value.1);
        r := classifier.Process(message, llm, resultsFileId);
      } else if eventType == JString("schema_lookup") {
        var lookup := new SchemaLookup(bucket);
        r := lookup.Process(message);
      } else if eventType == JString("schema_create") {
        r := Err(TypeError);
      } else {
        r := UnknownEvent(message.body.result, eventType);
      }
    }
  }
}
