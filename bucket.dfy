/**
 * The object store the ClassyCat models keep schemas and results in: one
 * bucket, key -> file. A file holds JSON text; it is kept here decoded, or
 * marked malformed when `json.loads` would reject it.
 */
module Buckets {
  import opened Wrappers
  import opened JsonValues
  import opened BaseException

  datatype StoredFile = JsonFile(content: Json) | MalformedFile

  type Objects = map<string, StoredFile>

  /** `json.loads(load_file_from_s3(bucket, key))`: a missing key or malformed text is an error. */
  function LoadJson(objects: Objects, key: string): (r: Result<Json, Exc>)
    ensures r.Ok? <==> key in objects && objects[key].JsonFile?
    ensures r.Ok? ==> r.value == objects[key].content
  {
    if key !in objects then Err(StoreError)
    else match objects[key]
      case MalformedFile => Err(ValueError("malformed JSON"))
      case JsonFile(content) => Ok(content)
  }

  class Bucket {
    var objects: Objects
    /** How many existence checks and loads this bucket has served. */
    var existenceChecks: nat
    var loads: nat

    constructor (objects: Objects)
      ensures this.objects == objects && existenceChecks == 0 && loads == 0
    {
      this.objects := objects;
      existenceChecks := 0;
      loads := 0;
    }

    /** `file_exists_in_s3(bucket, key)`. */
    method FileExists(key: string) returns (b: bool)
      modifies this`existenceChecks
      ensures b <==> key in objects
      ensures existenceChecks == old(existenceChecks) + 1
    {
      b := key in objects;
      existenceChecks := existenceChecks + 1;
    }

    /** `json.loads(load_file_from_s3(bucket, key))`. */
    method LoadJsonFile(key: string) returns (r: Result<Json, Exc>)
      modifies this`loads
      ensures r == LoadJson(objects, key)
      ensures loads == old(loads) + 1
    {
      r := LoadJson(objects, key);
      loads := loads + 1;
    }

    /** `upload_file_to_s3(bucket, key, json.dumps(content))`: creates or replaces the object. */
    method Upload(key: string, content: Json)
      modifies this`objects
      ensures objects == old(objects)[key := JsonFile(content)]
    {
      objects := objects[key := JsonFile(content)];
    }
  }
}
