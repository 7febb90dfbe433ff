# Presto core, modelled in Dafny

Presto is a message-driven service that runs "models" (fingerprinters, keyword
extractors, LLM classifiers) over items that arrive on queues. This project
models its core:

- **The message envelope** (`lib/schemas.py`). `parse_input_message` checks for
  `body` and `model_name` and resolves the model kind through the class
  registry (`get_class`, `lib/helpers.py`). It then runs the kind's
  `validate_input` and `parse_input_message` and builds the typed `Message`.
  When the kind gives no typed result, the result shape follows the kind name.
- **Errors** (`lib/base_exception.py`). A `PrestoBaseException` carries a
  message and a status-like code, and its string form is `"<code>: <message>"`.
- **Queues** (`lib/queue/*.py`):
  - the base queue's naming and its receive/respond/send pass;
  - the Redis queue's pops and pushes on Redis lists;
  - the worker's receive, respond, acknowledge and push cycle, with its queue naming;
  - the processor's per-message HTTP callbacks.
- **The result cache** (`lib/cache.py`): Redis keys with time-to-live; a hit
  restarts the TTL.
- **ClassyCat**, the LLM topic classifier (`lib/model/classycat*.py`):
  - schema creation turns a taxonomy into a prompt and stores it, plus a
    name-to-id mapping;
  - schema lookup resolves a name to an id;
  - classification puts a batch into the schema's prompt, parses the LLM's
    tagged answer, keeps the permitted labels and stores the batch;
  - a dispatcher selects one of these by event type.
- **YAKE keyword post-processing** (`lib/model/yake_keywords.py`): a keyword
  contained in a strictly longer one is dropped, and the extraction
  parameters are read with their defaults.
- **Video naming helpers** (`lib/model/video.py`): the TMK file path, the
  program name and the bucket name.

Python's string operations are written out in `strings.dfy`: `find`,
`split`, `join`, `replace`, `strip`, `int()` and `str()` of integers. JSON
values are a datatype (`json.dfy`). Stateful parts are classes whose
methods are proved against specification functions: the Redis server, the
worker's in-flight set, the cache store and the object bucket. External
effects are function-typed parameters: the LLM, HTTP POST, the queue
backend, decoding, fresh uuids and the clock.

## Model

| member | source | states |
|---|---|---|
| BaseException.NewPrestoBaseException | lib/base_exception.py:2-5 | the exception keeps the message and code as given, and the base `Exception` is initialised with the message alone |
| BaseException.ToStringRoundTrip | lib/base_exception.py:7-8 | `"<code>: <message>"` determines the exception: code and message can be read back unchanged |
| BaseException.Raise | lib/base_exception.py:1-5 | a raised `PrestoBaseException` reports the code it was given |
| Helpers.ClassPathParts | lib/helpers.py:5-7 | the module path is the prefix followed by every segment but the last; the attribute is the last segment, which has no dot; the two rejoin to the class name |
| Helpers.GetClass | lib/helpers.py:4-7 | the lookup succeeds exactly when the derived module is registered and defines the attribute, and then returns that attribute |
| Schemas.ResultTypeFor | lib/schemas.py:69-75 | yake shape iff the kind name contains `yake_keywords`; video shape iff it contains `video` and not `yake_keywords`; media shape otherwise |
| Schemas.MediaKindExamples | lib/schemas.py:69-75 | the kind names `audio.Model`, `image.Model` and `mean_tokens.Model` get the media shape |
| Schemas.KeywordKindExamples | lib/schemas.py:69-75 | `video.Model` gets the video shape, and `yake_keywords.Model` and `yake_keywords__Model` get the keywords shape |
| Schemas.OptionalString | lib/schemas.py:32-35 | an absent or null optional string field is None, and a present string is kept; validation passes iff the field is absent, null or a string |
| Schemas.OptionalDict | lib/schemas.py:36-37 | an absent optional dict field defaults to `{}`, null is None, and a present dict is kept; validation passes iff the field is absent, null or a dict |
| Schemas.MakeGenericItem | lib/schemas.py:30-38 | `id` is required; every other field is the body's value or its default; the result starts as None; the item validates iff the id is a string or number and every optional field validates |
| Schemas.MakeResponse | lib/schemas.py:15-27 | the built response has the requested shape; a non-mapping result is a TypeError |
| Schemas.ParseInputMessage | lib/schemas.py:47-83 | a missing `body` or `model_name` is 422; an unresolvable kind is 404 with the message naming the model; a validator error is raised as it is; on success the kind name is kept, `retry_count` is 0, `result` is deleted from the body, and the result is the parser's or the fallback shape; conversely, an envelope on which every step succeeds always yields a message |
| Schemas.ParseInputMessageFallback | lib/schemas.py:47-83 | when the kind's parser gives nothing, the message is exactly the item built from the body without `result`, carrying the fallback response, with the kind name verbatim and no retries |
| Schemas.AudioMessageParses | test/lib/test_schemas.py:9-23 | the audio test message parses into the expected item, whose result is a media response holding the test's `hash_value` |
| Queues.GetOutputQueueName | lib/queue/queue.py:15-18 | a non-empty override is used as given, and the name is never empty |
| Queues.DerivedOutputName | lib/queue/queue.py:15-18 | without an override the output name is `<input>-output`, which differs from the input name |
| Queues.OutputNameStable | lib/queue/queue.py:15-18 | giving the derived name back as the override returns it unchanged |
| Queues.OutputNameExamples | lib/queue/queue.py:15-18 | `test` gives `test-output`, and the override `new-output` is kept |
| Queues.Responses | lib/queue/queue.py:22-23 | one response per message, in receipt order |
| Queues.ResponsesSnoc | lib/queue/queue.py:22-24 | responding to one more message appends exactly its response |
| Queues.Queue.constructor | lib/queue/queue.py:10-13 | stores the input name, the resolved output name and the batch size |
| Queues.Queue.ProcessMessages | lib/queue/queue.py:20-24 | asks once for `batch_size` messages, responds to each in order, and sends each response in order |
| RedisQueues.Lpop | lib/queue/redis_queue.py:33-39 | an empty list yields nothing and no change; otherwise the head is returned and removed; no other list changes |
| RedisQueues.Rpush | lib/queue/redis_queue.py:41-46 | the message is appended at the tail; no other list changes |
| RedisQueues.PushAllQueued | lib/queue/redis_queue.py:41-46 | successive pushes append the messages in order |
| RedisQueues.ReceiveDropsFalsy | lib/queue/redis_queue.py:24-30 | a falsy head value is popped and lost, and the batch is empty |
| RedisQueues.ReceivePrefix | lib/queue/redis_queue.py:20-31 | a batch holds at most `batch_size` truthy messages and is a prefix of the list; the list loses exactly that prefix plus the falsy value that stopped it, if any |
| RedisQueues.ReceiveAllTruthy | lib/queue/redis_queue.py:20-31 | when every value is truthy, the batch is the first `batch_size` values and the list keeps the rest |
| RedisQueues.ReceiveNothing | lib/queue/redis_queue.py:24-25 | a batch size of zero or less receives nothing and changes nothing |
| RedisQueues.PushThenReceive | lib/queue/redis_queue.py:20-46 | truthy messages pushed onto an empty list are received back in push order, and the list ends empty |
| RedisQueues.RedisQueue.constructor | lib/queue/redis_queue.py:10-18 | keeps both queue names as given and as the base queue resolves them, and the batch size |
| RedisQueues.RedisQueue.PopMessage | lib/queue/redis_queue.py:33-39 | behaves as LPOP on the input list |
| RedisQueues.RedisQueue.PushMessage | lib/queue/redis_queue.py:41-46 | behaves as RPUSH and returns the message |
| RedisQueues.RedisQueue.ReceiveMessages | lib/queue/redis_queue.py:20-31 | the loop's batch and store are those of the receive specification |
| Workers.WorkerQueueNames | lib/queue/worker.py:15-17 | neither queue name contains a dot, and the output name ends with `_output` |
| Workers.WorkerNamesFree | lib/queue/worker.py:15-17 | writing `.` as `__` leaves no dot in the names |
| Workers.WorkerInputName | lib/queue/worker.py:15-17 | the input name is prefix + model name with every `.` written `__`; the output name is the input name + `_output` |
| Workers.RestrictQueuesBySuffix | lib/queue/worker.py:27 | a queue is kept iff it is listed and does not end with the suffix |
| Workers.OutputQueueNotListened | lib/queue/worker.py:15-27 | the worker's restricted input queues never include its own output queue |
| Workers.RestrictExample | lib/queue/worker.py:27 | of `test_input`, `test_input_output` and `test_another_input`, the `_output` queue is dropped |
| Workers.DecodeAll | lib/queue/worker.py:56 | succeeds iff every payload decodes, giving one message per payload in order; otherwise the first failure |
| Workers.RespondOutcome | lib/queue/worker.py:46-60 | an empty batch or a decoding failure yields no responses |
| Workers.RespondOutcomeCases | lib/queue/worker.py:53-60 | a successful model call yields exactly its responses, and a failed one yields none |
| Workers.PushesTo | lib/queue/worker.py:42-44 | one push per response, to the output queue, in order |
| Workers.QueueWorker.constructor | lib/queue/worker.py:21-31 | the input queues are the existing ones minus the `_output` ones, the output queues are the existing ones under the output name, and all queues are the backend's `store_queue_map` of the input queues followed by the output queues; the logs start empty |
| Workers.QueueWorker.ReceiveMessages | lib/queue/worker.py:51 | the received batch is put in flight |
| Workers.QueueWorker.DeleteMessages | lib/queue/worker.py:59 | the batch leaves the in-flight set, and the deletion is logged |
| Workers.QueueWorker.SafelyRespond | lib/queue/worker.py:46-60 | every received message is acknowledged whether the model fails or not; an empty batch deletes nothing; the responses are the respond specification's |
| Workers.QueueWorker.PushMessage | lib/queue/worker.py:44 | logs one push to the named queue |
| Workers.QueueWorker.Process | lib/queue/worker.py:34-44 | after one cycle nothing stays in flight, and each response is pushed once to the output queue, in order |
| Processors.ProcessorQueueName | lib/queue/processor.py:27-28 | the name is the input name followed by `_output` and the suffix |
| Processors.RestrictQueuesToSuffix | lib/queue/processor.py:28 | a queue is kept iff it is listed and ends with the suffix |
| Processors.ListenedQueueKept | lib/queue/processor.py:27-28 | the processor's own queue survives the restriction whenever the backend has it |
| Processors.ProcessorReadsWorkerOutput | lib/queue/processor.py:27-28 | with no suffix, the processor for a worker's input name listens on that worker's output queue |
| Processors.Attempt | lib/queue/processor.py:47-57 | the attempt targets the message's callback URL; a message without one is never delivered |
| Processors.Attempts | lib/queue/processor.py:42-44 | one attempt per message, in order |
| Processors.QueueProcessor.constructor | lib/queue/processor.py:21-31 | listens on the `_output<suffix>` queues of its input name, all queues are the backend's `store_queue_map` of those, and it keeps the batch size |
| Processors.QueueProcessor.SendCallback | lib/queue/processor.py:47-57 | logs exactly one attempt, and a failure is not raised |
| Processors.QueueProcessor.SendCallbacks | lib/queue/processor.py:33-45 | an empty batch does nothing; a decoding failure propagates and leaves the batch in flight with no callback; otherwise one attempt per message, in order, then the batch is deleted |
| Caches.DefaultTtl | lib/cache.py:7 | an unset or empty setting gives 86400; otherwise the setting must parse as an integer, which is the TTL |
| Caches.DefaultTtlOfDecimal | lib/cache.py:7 | a decimal setting gives that integer back |
| Caches.Expire | lib/cache.py:37 | a missing or expired key changes nothing; a live key gets expiry `now + ttl` with its value kept, or is deleted when the TTL is not positive; no other key changes |
| Caches.Setex | lib/cache.py:52 | succeeds iff the TTL is positive, and no other key changes |
| Caches.GetAfterSet | lib/cache.py:20-52 | a get after a set returns the value before the TTL runs out, and nothing afterwards |
| Caches.SetLeavesOthers | lib/cache.py:42-52 | a set does not affect lookups of any other key |
| Caches.SlidingTtl | lib/cache.py:35-38 | a hit whose TTL is reset stays a hit, with the same value, for `ttl` more seconds, and is a miss from then on |
| Caches.Cache.constructor | lib/cache.py:7-8 | the default TTL is `DEFAULT_TTL`: the `CACHE_DEFAULT_TTL` setting as an integer, or a day when it is unset or empty |
| Caches.Cache.GetCachedResult | lib/cache.py:20-39 | an empty or missing hash gives None and no change; otherwise the live value; a hit with `reset_ttl` restarts the TTL (by default the cache's `DEFAULT_TTL`), and anything else changes nothing |
| Caches.Cache.SetCachedResult | lib/cache.py:42-52 | stores the result with a fresh TTL (by default the cache's `DEFAULT_TTL`); a non-positive TTL is refused and changes nothing |
| Buckets.LoadJson | lib/model/classycat_classify.py:115-116 | loading succeeds iff the object exists and is valid JSON, and then gives its content |
| Buckets.Bucket.FileExists | lib/model/classycat_classify.py:150-151 | true iff the key is stored; one existence check is counted |
| Buckets.Bucket.LoadJsonFile | lib/model/classycat_schema_lookup.py:22-23 | the load specification's result; one load is counted |
| Buckets.Bucket.Upload | lib/model/classycat_schema_create.py:44 | the key now holds the content; nothing else changes |
| ClassyCatSchemaCreate.LanguagesNamed | lib/model/classycat_schema_create.py:63-67 | every language appears in the prose list |
| ClassyCatSchemaCreate.LanguagesTextTwo | lib/model/classycat_schema_create.py:63-65 | two languages are joined by "and" |
| ClassyCatSchemaCreate.LanguagesTextFour | lib/model/classycat_schema_create.py:63-67 | four languages are joined by commas, with ", and" before the last |
| ClassyCatSchemaCreate.PromptCategories | lib/model/classycat_schema_create.py:68-98 | the taxonomy block: the title, then one line per topic, then example items and their categories, numbered alike, each section between its tags |
| ClassyCatSchemaCreate.GeneratePromptFromSchema | lib/model/classycat_schema_create.py:60-104 | the three loops build the prompt the specification describes |
| ClassyCatSchemaCreate.InPrompt | lib/model/classycat_schema_create.py:100-104 | whatever occurs in the languages, the name or the taxonomy occurs in the prompt |
| ClassyCatSchemaCreate.CategoriesInPrompt | lib/model/classycat_schema_create.py:100-104 | any piece of a taxonomy line occurs in the prompt |
| ClassyCatSchemaCreate.TopicLineMentions | lib/model/classycat_schema_create.py:76 | a topic's line mentions its title and its description |
| ClassyCatSchemaCreate.PromptNamesTopic | lib/model/classycat_schema_create.py:74-77 | a topic's title and description appear in the prompt |
| ClassyCatSchemaCreate.PromptNamesExample | lib/model/classycat_schema_create.py:84-85 | an example's text appears in the prompt |
| ClassyCatSchemaCreate.PromptNamesLabel | lib/model/classycat_schema_create.py:90-93 | each label of an example appears in the prompt |
| ClassyCatSchemaCreate.PromptMentions | lib/model/classycat_schema_create.py:60-104 | the prompt names every language, the schema name, every topic's title and description, and every example's text and labels |
| ClassyCatSchemaCreate.PromptEndsWithItemsSlot | lib/model/classycat_schema_create.py:25 | the prompt ends with the input block holding the `<INSERT_ITEMS_HERE>` placeholder |
| ClassyCatSchemaCreate.Created | lib/model/classycat_schema_create.py:29-57 | after creation the name's mapping object exists; the schema is stored under its id; every other key is unchanged |
| ClassyCatSchemaCreate.SchemaNameExists | lib/model/classycat_schema_create.py:183-188 | true iff `<name>.json` is stored |
| ClassyCatSchemaCreate.CreatedNameExists | lib/model/classycat_schema_create.py:32-49 | once a schema is created, its name is taken |
| ClassyCatSchemaCreate.CreateSchema | lib/model/classycat_schema_create.py:29-57 | returns the fresh id and leaves the bucket as the creation specification says |
| ClassyCatSchemaCreate.CheckTopic | lib/model/classycat_schema_create.py:162-170 | a non-dict topic is a TypeError; a dict passes iff its description is a non-empty string; a failing topic without a title is a KeyError |
| ClassyCatSchemaCreate.CheckTopics | lib/model/classycat_schema_create.py:162-170 | passes iff every topic passes; otherwise the first failing topic's error |
| ClassyCatSchemaCreate.VerifySchemaParameters | lib/model/classycat_schema_create.py:152-180 | passes iff the name is a non-empty string, topics and examples are non-empty lists, every topic passes, and languages is a non-empty list; each failure gives its own error in source order: the name, the topics list, the first failing topic's own error, the examples list, then the languages list |
| ClassyCatSchemaCreate.VerifyExamples | lib/model/classycat_schema_create.py:152-180 | a test schema passes; an empty name is rejected first, then an empty topic list |
| ClassyCatSchemaLookup.LookUpSchemaIdByName | lib/model/classycat_schema_lookup.py:21-24 | succeeds iff the name's mapping object loads as a dict with `schema_id`, and gives that field |
| ClassyCatSchemaLookup.LookupOutcome | lib/model/classycat_schema_lookup.py:27-78 | a missing name parameter is a KeyError; a missing mapping is 404; every later failure is 500; on success the schema response carries the looked-up id and "success" |
| ClassyCatSchemaLookup.LookupAfterCreate | lib/model/classycat_schema_lookup.py:63-75 | looking up a freshly created schema's name answers with its id |
| ClassyCatSchemaLookup.SchemaLookup.constructor | lib/model/classycat_schema_lookup.py:12-14 | uses the given bucket |
| ClassyCatSchemaLookup.SchemaLookup.SchemaNameExistsIn | lib/model/classycat_schema_lookup.py:17-18 | true iff the name's mapping object exists; one existence check |
| ClassyCatSchemaLookup.SchemaLookup.Process | lib/model/classycat_schema_lookup.py:27-78 | the result is the lookup specification's; one existence check, and one load only past it |
| ClassyCatSchemaLookup.ValidateInput | lib/model/classycat_schema_lookup.py:81-86 | every input is accepted |
| ClassyCatSchemaLookup.ParseInputMessage | lib/model/classycat_schema_lookup.py:88-93 | gives no typed result |
| ClassyCatClassify.GetLlmClient | lib/model/classycat_classify.py:85-91 | succeeds iff the client type is `anthropic` or `openrouter`, choosing that client with the model name; otherwise 500 |
| ClassyCatClassify.MaxTokens | lib/model/classycat_classify.py:42 | the budget is 15 more than per-item tokens times the item count |
| ClassyCatClassify.FormattedItemLines | lib/model/classycat_classify.py:93-94 | for texts without line breaks, splitting the batch on newlines gives back one `<ITEM_i>` line per text |
| ClassyCatClassify.FormattedItemsMention | lib/model/classycat_classify.py:93-94 | every item text appears in the formatted batch |
| ClassyCatClassify.LineLabels | lib/model/classycat_classify.py:102-103 | a parsed line has at least one label; the only failure is an IndexError |
| ClassyCatClassify.LineLabelsFailure | lib/model/classycat_classify.py:102 | a line fails exactly when `<CATEGORIES_i>` does not occur before the first `</CATEGORIES_i>`, so a line without the opening tag is an IndexError |
| ClassyCatClassify.OutputLines | lib/model/classycat_classify.py:97-98 | the output block has at least one line; the only failure is an IndexError |
| ClassyCatClassify.ParseResults | lib/model/classycat_classify.py:96-104 | every failure to parse an answer is an IndexError |
| ClassyCatClassify.ParseResultsByLine | lib/model/classycat_classify.py:96-104 | the answer parses iff it has an output block and every line parses; result line `i` is the labels of output line `i` |
| ClassyCatClassify.UnlabelledLine | lib/model/classycat_classify.py:101-102 | an output line without its `<CATEGORIES_i>` tag makes the answer an IndexError |
| ClassyCatClassify.ParseClassificationResults | lib/model/classycat_classify.py:96-105 | the loop gives the parse specification's result: one non-empty label list per output line |
| ClassyCatClassify.LineLabelsOfCategoriesLine | lib/model/classycat_classify.py:102-103 | line `i` written as `<CATEGORIES_i>a;b</CATEGORIES_i>` parses back to its labels |
| ClassyCatClassify.OutputLinesOfBlock | lib/model/classycat_classify.py:97-98 | the output block of a plain answer yields exactly its categories lines |
| ClassyCatClassify.ParseOutputBlock | lib/model/classycat_classify.py:96-105 | parsing an answer in the requested format gives back the label lists it was written from |
| ClassyCatClassify.ParseWithoutOutputBlock | lib/model/classycat_classify.py:98 | an answer without `<OUTPUT>` is an IndexError |
| ClassyCatClassify.LenOf | lib/model/classycat_classify.py:221 | `len` is defined exactly for lists, dicts and strings; a list gives its element count |
| ClassyCatClassify.Elements | lib/model/classycat_classify.py:120 | a list's elements in order; any other value yields no indexable item |
| ClassyCatClassify.Field | lib/model/classycat_classify.py:120 | succeeds iff the item is a dict holding the key, and gives its value |
| ClassyCatClassify.FieldAll | lib/model/classycat_classify.py:120 | succeeds iff every item has the key, giving one value per item in order |
| ClassyCatClassify.Texts | lib/model/classycat_classify.py:94 | one `str()` rendering per item, in order |
| ClassyCatClassify.TaskPromptOfSchema | lib/model/classycat_classify.py:108 | every item text appears in the task prompt built from a stored schema prompt |
| ClassyCatClassify.Classify | lib/model/classycat_classify.py:107-111 | the parsed LLM answer for the task prompt and budget; a success is non-empty |
| ClassyCatClassify.PermittedLabels | lib/model/classycat_classify.py:134 | a schema without topics is a KeyError; the permitted labels end with "Other" and "Unsure" |
| ClassyCatClassify.PermittedLabelsTitles | lib/model/classycat_classify.py:134 | for a list of topics the permitted labels exist iff every topic has a `topic` title, and are then the titles in topic order followed by "Other" and "Unsure" |
| ClassyCatClassify.KeepPermitted | lib/model/classycat_classify.py:141 | a label is kept iff it is in the list and permitted |
| ClassyCatClassify.KeepPermittedAll | lib/model/classycat_classify.py:141 | a list whose labels are all permitted is kept whole |
| ClassyCatClassify.KeepPermittedConcat | lib/model/classycat_classify.py:141 | filtering a concatenation filters each part, so the kept labels keep their original order |
| ClassyCatClassify.KeepPermittedCounts | lib/model/classycat_classify.py:141 | a permitted label is kept as many times as it occurs (duplicates included); any other label is dropped; the result is never longer than the input |
| ClassyCatClassify.FilterResults | lib/model/classycat_classify.py:135-141 | each result keeps its id and text and only its permitted labels, in order |
| ClassyCatClassify.Combine | lib/model/classycat_classify.py:128-129 | result `i` pairs item `i`'s id and text with answer line `i` |
| ClassyCatClassify.Filtered | lib/model/classycat_classify.py:135-141 | filtering keeps the number of results |
| ClassyCatClassify.LabelItems | lib/model/classycat_classify.py:120-141 | on success each result has its item's id and text, and the permitted part of its own answer line; an answer with a line count other than the item count is 502 |
| ClassyCatClassify.ClassifyOutcome | lib/model/classycat_classify.py:113-147 | a missing schema fails; on success the schema had a prompt and a name, the results are the labelling's, and only the results file may change, written only when some label survived |
| ClassyCatClassify.LabelItemsFaithful | lib/model/classycat_classify.py:120-141 | when the LLM answers in the requested format with permitted labels, every item gets exactly the labels the LLM gave it |
| ClassyCatClassify.ClassifyFaithful | lib/model/classycat_classify.py:113-147 | such a batch keeps the LLM's labels item by item and is stored under `<schema_id>/<uuid>.json` |
| ClassyCatClassify.LabelBatch | lib/model/classycat_classify.py:120-141 | computes what the labelling specification says |
| ClassyCatClassify.Configure | lib/model/classycat_classify.py:77-83 | an unset limit is a TypeError; configuration succeeds iff the limit parses and the client type is known |
| ClassyCatClassify.ConfigureOfDecimal | lib/model/classycat_classify.py:80-83 | a decimal limit and a known client type configure that limit and client |
| ClassyCatClassify.ClassifyModel.constructor | lib/model/classycat_classify.py:76-83 | keeps the bucket, the limit and the client |
| ClassyCatClassify.ClassifyModel.SchemaIdExists | lib/model/classycat_classify.py:150-151 | true iff `<schema_id>.json` is stored; one existence check |
| ClassyCatClassify.ClassifyModel.ClassifyAndStoreResults | lib/model/classycat_classify.py:113-147 | the result and the bucket afterwards are the classification specification's |
| ClassyCatClassify.ClassifyModel.Process | lib/model/classycat_classify.py:212-233 | the result and the bucket afterwards are the process specification's |
| ClassyCatClassify.Wrapped | lib/model/classycat_classify.py:228-233 | a `PrestoBaseException` passes through unchanged, and anything else becomes a 500 |
| ClassyCatClassify.WithResults | lib/model/classycat_classify.py:225-227 | a batch response gets the results and "success"; any other result is a 500 |
| ClassyCatClassify.ProcessOutcome | lib/model/classycat_classify.py:212-233 | the checks before classification leave the bucket alone; an unknown schema id is 404; too many items is 422; a classification failure is re-raised through the wrapping; a successful classification is set on the message's result, and the batch it stored stays stored even when that assignment fails; a success carries the classified items |
| ClassyCatClassify.ProcessAnswersSuccess | lib/model/classycat_classify.py:212-227 | a message whose result is a batch response, once the checks pass and the classification succeeds, is answered with responseMessage "success" and the classified items, and the bucket holds what the classification stored |
| ClassyCatClassify.UnparsableAnswer | lib/model/classycat_classify.py:224-233 | an LLM answer that does not parse (no output block, or a line without its categories tag) fails a valid batch with a 500 and stores nothing |
| ClassyCatClassify.CheckItem | lib/model/classycat_classify.py:248-251 | a dict item passes iff it has a non-empty id and text; a failing dict item is 422 "id is required for each item" when its id is missing or empty, and 422 "text is required for each item" otherwise; every raised check is a 422 |
| ClassyCatClassify.CheckItems | lib/model/classycat_classify.py:247-251 | passes iff every item passes |
| ClassyCatClassify.NotIn | lib/model/classycat_classify.py:241 | on a dict, the key test; a membership test is defined exactly for dicts, lists and strings |
| ClassyCatClassify.CheckIterated | lib/model/classycat_classify.py:247 | a list of items is checked element by element |
| ClassyCatClassify.ValidateInput | lib/model/classycat_classify.py:236-251 | a missing or empty schema id is 422, then missing or empty items is 422; a success means both exist and every listed item has an id and a text; with a schema id and a non-empty list of items, the outcome is exactly the items' check |
| ClassyCatClassify.FirstFailingItem | lib/model/classycat_classify.py:247-251 | the items are checked in order: after items that all pass, the first failing item's error is the outcome |
| ClassyCatClassify.ValidateItemsText | lib/model/classycat_classify.py:247-251 | an item with an id but a missing or empty text, after items that all pass, gives 422 "text is required for each item" |
| ClassyCatClassify.ValidateItems | lib/model/classycat_classify.py:247-249 | the first item without an id decides the error: 422 "id is required for each item" |
| ClassyCatClassify.ParseInputMessage | lib/model/classycat_classify.py:253-265 | a `classify` event succeeds iff `result` is absent, or is a dict whose `responseMessage` is absent, null or a string and whose `classification_results` is absent or a well-formed results list; it then gives a batch response carrying that message and those results (no message and no results without a `result`); a wrongly typed field is the validation error; any other event type is 422 |
| ClassyCatClassify.IncomingResults | lib/model/classycat_classify.py:259-262 | an absent `classification_results` gives the empty list; otherwise it succeeds iff it is a list whose every entry decodes, giving entry i's result at position i; any failure is the validation error for that field |
| ClassyCatClassify.ResultOfResultJson | lib/model/classycat_classify.py:128-129 | a result written as `{'id', 'text', 'labels'}` decodes back to itself |
| ClassyCatClassify.IncomingResultsRoundTrip | lib/model/classycat_classify.py:128-145 | results as the classifier writes them come back unchanged when a message's `result` carries them |
| ClassyCat.UnknownEvent | lib/model/classycat.py:21-24 | the message's own result comes back with only its message set to "Unknown event type ..." |
| ClassyCat.DispatchOutcome | lib/model/classycat.py:13-24 | `classify` and `schema_lookup` behave as those models; an unknown event type gives the unknown-event answer; only `classify` writes to the bucket |
| ClassyCat.DispatchLookupAfterCreate | lib/model/classycat.py:17-18 | a lookup dispatched after a creation answers with the created schema's id |
| ClassyCat.ClassyCatModel.constructor | lib/model/classycat.py:10-11 | keeps the bucket and the settings |
| ClassyCat.ClassyCatModel.Process | lib/model/classycat.py:13-24 | builds the selected model, and its result and bucket are the dispatch specification's |
| YakeKeywords.Survivors | lib/model/yake_keywords.py:14-28 | a keyword is kept iff it is listed and no keyword of the list eliminates it |
| YakeKeywords.SurvivorsConcat | lib/model/yake_keywords.py:17-27 | the filter works keyword by keyword: it distributes over concatenation |
| YakeKeywords.KeepLargestOverlappedKeywords | lib/model/yake_keywords.py:14-28 | the nested loops keep exactly the keywords no strictly longer keyword contains, in order |
| YakeKeywords.SurvivorsSubsequence | lib/model/yake_keywords.py:14-28 | the kept keywords are a subsequence of the input: nothing is added or reordered |
| YakeKeywords.LongestKept | lib/model/yake_keywords.py:22-25 | a keyword at least as long as all others is kept |
| YakeKeywords.NonEmptyKept | lib/model/yake_keywords.py:14-28 | a non-empty list keeps at least one keyword |
| YakeKeywords.NoneEliminated | lib/model/yake_keywords.py:26-27 | keywords nobody eliminates are all kept |
| YakeKeywords.EqualLengthsKept | lib/model/yake_keywords.py:22 | keywords of equal length are all kept |
| YakeKeywords.Idempotent | lib/model/yake_keywords.py:14-28 | filtering twice gives the same as filtering once |
| YakeKeywords.GetParams | lib/model/yake_keywords.py:64-75 | each parameter is the caller's value when given and the default otherwise; the text is required |
| Video.TmkFilePath | lib/model/video.py:25-32 | the path ends with `.tmk` and has the expected length |
| Video.TmkFilePathInverse | lib/model/video.py:32 | the directory and the file name can be read back from the path |
| Video.TmkFilePathInDirectory | lib/model/video.py:20-32 | a file in the model's `./video_files` directory has its signature at `./video_files/<name>.tmk` |
| Video.TmkProgramName | lib/model/video.py:34-38 | the name is exactly `PrestoVideoEncoder` (non-empty, no spaces) |
| Video.TmkBucket | lib/model/video.py:40-45 | an unset or empty prefix gives `local-tmk-videos`; the bucket always ends with `tmk-videos` and contains no `.` or `_` |
| Video.ReplacementsDashed | lib/model/video.py:44 | the two replacements together turn `.` into `--` and `_` into `-`, character by character |
| Video.TmkBucketOfPrefix | lib/model/video.py:40-45 | a non-empty prefix gives its dashed rendering followed by `tmk-videos` |

## Left out

- Python's `int()`, `str()`, `strip`, `split`, `join`, `find` and `replace` are written out for the cases the code uses. `int()` does not accept underscores in the model.
- `PyStr` renders strings, integers, booleans and None as Python does. Floats and containers render as the empty string, because their exact text is not modelled.
- Floats are kept as a mantissa and an exponent and are never computed with.
- The dynamic import in `get_class` becomes a lookup in a registry of modules and their attributes. The Python import machinery is not modelled.
- Pydantic's type coercion is left out: fields are accepted only in the JSON type they are declared with, and other values are a validation error.
- `lib/schemas.py` does not define the ClassyCat response classes that the classify and lookup models import. `lib/model/classycat_response.py` defines them with a `results` field. The model follows the documented output instead, which puts `classification_results` and `responseMessage` in the result.
- The queue backends are parameters, because they are not in the modelled files: `receive_messages`, `delete_messages`, `get_or_create_queues`, `store_queue_map` and `Queue.get_queue_suffix`.
- QueueWorker and QueueProcessor call `super().__init__()` with no arguments. The base `Queue.__init__` requires three, so the call fails as written. The model runs the constructors as if that call set nothing.
- Workers.QueueWorker.constructor: requires a non-empty output queue name. Without one, `output_queues` is never assigned and the constructor fails; that path is not modelled.
- Caches.Cache.constructor: requires a `CACHE_DEFAULT_TTL` that is unset, empty or an integer. Any other value makes `int()` raise while `lib/cache.py` loads, before any cache exists; that failure is not modelled.
- Redis holds JSON text, and the model keeps it decoded once. The second `json.loads` in `receive_messages` is not modelled.
- The cache's `json.dumps` and `json.loads` round trip is the identity on the stored values.
- The Redis and S3 clients, the HTTP POST (with its timeout), the LLM clients (API keys, timeouts, temperature), `uuid4()`, the clock and environment lookups are all parameters. Their effects are out of scope.
- The S3 helpers `load_file_from_s3` and `file_exists_in_s3`, and the three-argument `upload_file_to_s3`, are not in the modelled files. The bucket's behaviour comes from the call sites.
- Logging, telemetry and metrics are left out.
- Schemas.ParseInputMessage: the 404 message ends at "model_name is not supported" and omits the `: <import error>` suffix, because the text of the failed import comes from the Python import machinery, which is not modelled.
- ClassyCatClassify.ParseInputMessage: does not promise an empty results list. A `result` that carries `classification_results` keeps them, because `**result_data` passes them to the response class.
- ClassyCatClassify.IncomingResults: an entry of `classification_results` must be a dict with `id`, `text` and a list of string `labels`, the shape the classifier writes. The class it is loaded into is not defined in `lib/schemas.py`, so a dict of any other shape, which a plain `List[dict]` field would keep, is a validation error here. When both `responseMessage` and `classification_results` are wrongly typed, only the first is named in the error.
- ClassyCatClassify.Wrapped: the 500 message is "Error classifying items" without the text of the wrapped exception, because exception texts other than `PrestoBaseException`'s are not modelled.
- ClassyCatClassify.CheckIterated: when items arrive as a dict, its keys are checked in an unmodelled order. Only whether some key could pass is kept.
- Schema creation's `process` refers to names that are not defined (`event`, `s3_client`, the module-level helpers) and takes no message. It is not modelled, and dispatching `schema_create` gives a TypeError.
- Schema creation takes topics and examples as typed records (a title and a description; a text and labels). Topics and examples of other shapes are not modelled.
- `run_yake` is left out because it calls the external YAKE extractor: the language detection (`detect`), the keyword extraction, and the `replace` calls whose results are discarded. Only the filter it applies and the parameters it receives are modelled.
- The video model's `process` is left out: it downloads the video, runs the `tmkpy` hashing, uploads to S3 and removes local files. Only the naming helpers are modelled.
- The SQS queue, the HTTP app and the run loops (`run.py`) are not part of this model.
