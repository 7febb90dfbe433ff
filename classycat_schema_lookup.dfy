/**
 * ClassyCat schema lookup: a schema name is resolved to its id through the
 * `<schema name>.json` mapping object that schema creation writes.
 */
module ClassyCatSchemaLookup {
  import opened Wrappers
  import opened Strings
  import opened JsonValues
  import opened BaseException
  import opened Schemas
  import opened Buckets
  import opened ClassyCatSchemaCreate

  /** `look_up_schema_id_by_name(schema_name)`: the `schema_id` field of the name's mapping object. */
  function LookUpSchemaIdByName(objects: Objects, schemaName: string): (r: Result<Json, Exc>)
    ensures r.Ok? <==> (LoadJson(objects, NameFile(schemaName)).Ok?
      && LoadJson(objects, NameFile(schemaName)).value.JObject?
      && "schema_id" in LoadJson(objects, NameFile(schemaName)).value.fields)
    ensures r.Ok? ==> r.value == LoadJson(objects, NameFile(schemaName)).value.fields["schema_id"]
    ensures NameFile(schemaName) !in objects ==> r.Err?
  {
    SchemaIdOf(LoadJson(objects, NameFile(schemaName)))
  }

  /** `json.loads(...)["schema_id"]` on what the load gave. */
  function SchemaIdOf(contents: Result<Json, Exc>): Result<Json, Exc> {
    var c :- contents;
    if !c.JObject? then Err(TypeError)
    else if "schema_id" !in c.fields then Err(KeyError("schema_id"))
    else Ok(c.fields["schema_id"])
  }

  /** The response `process` gives once the id is known: the message's result with the id and "success" set. */
  function WithSchemaId(result: Option<Response>, schemaId: Json): Result<Response, Exc> {
    if result.Some? && result.value.ClassyCatSchemaResponse? then
      Ok(result.value.(responseMessage := Some("success"), schemaId := schemaId))
    else if result.None? then Err(AttributeError("schema_id"))
    else Err(ValueError("schema_id"))
  }

  /** The outcome of `process(message)` against the bucket's contents. */
  function LookupOutcome(objects: Objects, message: Message): (r: Result<Response, Exc>)
    ensures message.body.parameters.None? ==> r == Err(TypeError)
    ensures message.body.parameters.Some? && "schema_name" !in message.body.parameters.value ==>
      r == Err(KeyError("schema_name"))
    // a missing mapping object is a 404
    ensures (message.body.parameters.Some? && "schema_name" in message.body.parameters.value
      && !SchemaNameExists(objects, PyStr(message.body.parameters.value["schema_name"]))) ==>
      r.Err? && r.error.Code() == Some(404)
    // any other failure becomes a 500
    ensures r.Err? && r.error.Code().Some? ==> r.error.Code() == Some(404) || r.error.Code() == Some(500)
    ensures r.Ok? ==>
      && r.value.ClassyCatSchemaResponse? && r.value.responseMessage == Some("success")
      && LookUpSchemaIdByName(objects, PyStr(message.body.parameters.value["schema_name"])) == Ok(r.value.schemaId)
  {
    if message.body.parameters.None? then Err(TypeError)
    else if "schema_name" !in message.body.parameters.value then Err(KeyError("schema_name"))
    else
      var name := PyStr(message.body.parameters.value["schema_name"]);
      if !SchemaNameExists(objects, name) then
        Err(Raise("Schema name " + name + " does not exist", 404))
      else
        match LookUpSchemaIdByName(objects, name)
        case Err(_) => Err(Raise("Error looking up schema name " + name, 500))
        case Ok(id) =>
          match WithSchemaId(message.body.result, id)
          case Err(_) => Err(Raise("Error looking up schema name " + name, 500))
          case Ok(response) => Ok(response)
  }

  /** A lookup by the name of a schema just created answers with that schema's id. */
  lemma LookupAfterCreate(objects: Objects, schema: Schema, schemaId: string, message: Message)
    requires message.body.parameters.Some?
    requires "schema_name" in message.body.parameters.value
    requires message.body.parameters.value["schema_name"] == JString(schema.schemaName)
    requires message.body.result.Some? && message.body.result.value.ClassyCatSchemaResponse?
    ensures LookupOutcome(Created(objects, schema, schemaId), message)
      == Ok(message.body.result.value.(responseMessage := Some("success"), schemaId := JString(schemaId)))
  {
    var after := Created(objects, schema, schemaId);
    assert PyStr(JString(schema.schemaName)) == schema.schemaName;
    assert LookUpSchemaIdByName(after, schema.schemaName) == Ok(JString(schemaId));
  }

  class SchemaLookup {
    /** The bucket schemas are kept in. */
    var bucket: Bucket

    constructor (bucket: Bucket)
      ensures this.bucket == bucket
    {
      this.bucket := bucket;
    }

    /** `schema_name_exists(schema_name)`. */
    method SchemaNameExistsIn(schemaName: string) returns (b: bool)
      modifies bucket`existenceChecks
      ensures b == SchemaNameExists(bucket.objects, schemaName)
      ensures bucket.existenceChecks == old(bucket.existenceChecks) + 1
    {
      b := bucket.FileExists(NameFile(schemaName));
    }

    /**
     * `process(message)`: check that the name's mapping exists (404 if
     * not), then read the id from it; whatever fails after the check is
     * reported as a 500. Exactly one existence check and, past it, one load.
     */
    method Process(message: Message) returns (r: Result<Response, Exc>)
      modifies bucket`existenceChecks, bucket`loads
      ensures r == LookupOutcome(bucket.objects, message)
      ensures var params := message.body.parameters;
        var named := params.Some? && "schema_name" in params.value;
        && bucket.existenceChecks == old(bucket.existenceChecks) + (if named then 1 else 0)
        && bucket.loads == old(bucket.loads)
          + (if named && SchemaNameExists(bucket.objects, PyStr(params.value["schema_name"])) then 1 else 0)
    {
      var params := message.body.parameters;
      if params.None? {
        return Err(TypeError);
      }
      if "schema_name" !in params.value {
        return Err(KeyError("schema_name"));
      }
      var name := PyStr(params.value["schema_name"]);
      var found := SchemaNameExistsIn(name);
      if !found {
        return Err(Raise("Schema name " + name + " does not exist", 404));
      }
      var contents := bucket.LoadJsonFile(NameFile(name));
      var id := SchemaIdOf(contents);
      if id.Err? {
        return Err(Raise("Error looking up schema name " + name, 500));
      }
      r := WithSchemaId(message.body.result, id.value);
      if r.Err? {
        r := Err(Raise("Error looking up schema name " + name, 500));
      }
    }
  }

  /** `validate_input(data)`: every input is accepted. */
  function ValidateInput(data: Body): (r: Option<Exc>)
    ensures r.None?
  {
    None
  }

  /** `parse_input_message(data)`: no typed result; the shape then follows the kind name. */
  function ParseInputMessage(data: Body): (r: Result<Option<Response>, Exc>)
    ensures r == Ok(None)
  {
    Ok(None)
  }
}
