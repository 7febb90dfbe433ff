/**
 * The worker: it derives its queue names from the queue prefix and the
 * model name, listens on every input queue except the output ones, and
 * runs one receive/respond/acknowledge/push cycle. The queue backend
 * (receiving a batch, deleting it) and the model's `respond` are parameters.
 * A received message stays in flight until it is deleted.
 */
module Workers {
  import opened Wrappers
  import opened Strings
  import opened JsonValues
  import opened BaseException
  import opened Schemas
  import Queues

  /** The suffix that marks an output queue. */
  const OUTPUT_QUEUE_SUFFIX: string := "_output"

  /** A received message with the queue it came from; the payload is the decoded message body. */
  datatype Received = Received(payload: Json, queue: string)

  /** `QueueWorker.create`: input name from prefix and model name (dots written as `__`), output name from the input name. */
  function WorkerQueueNames(queuePrefix: string, modelName: string): (names: (string, string))
    ensures '.' !in names.0 && '.' !in names.1
    ensures EndsWith(names.1, OUTPUT_QUEUE_SUFFIX)
  {
    var input := Replace(queuePrefix, ".", "__") + Replace(modelName, ".", "__");
    var output := input + OUTPUT_QUEUE_SUFFIX;
    WorkerNamesFree(queuePrefix, modelName);
    assert output[|output| - |OUTPUT_QUEUE_SUFFIX|..] == OUTPUT_QUEUE_SUFFIX;
    (input, output)
  }

  lemma WorkerNamesFree(queuePrefix: string, modelName: string)
    ensures '.' !in Replace(queuePrefix, ".", "__") + Replace(modelName, ".", "__") + OUTPUT_QUEUE_SUFFIX
  {
    ReplaceCharRemoves(queuePrefix, '.', "__");
    ReplaceCharRemoves(modelName, '.', "__");
  }

  /** The input name is the prefix's and the model name's dotted paths with `.` written as `__`, and nothing else. */
  lemma WorkerInputName(queuePrefix: string, modelName: string)
    ensures WorkerQueueNames(queuePrefix, modelName).0 == Replace(queuePrefix + modelName, ".", "__")
    ensures WorkerQueueNames(queuePrefix, modelName).1 == WorkerQueueNames(queuePrefix, modelName).0 + "_output"
  {
    ReplaceCharConcat(queuePrefix, modelName, '.', "__");
  }

  /** `restrict_queues_by_suffix(queues, suffix)`: the queues whose names do not end with `suffix`, in order. */
  function RestrictQueuesBySuffix(queues: seq<string>, suffix: string): (r: seq<string>)
    ensures |r| <= |queues|
    ensures forall q :: q in r <==> q in queues && !EndsWith(q, suffix)
  {
    if queues == [] then []
    else
      var rest := RestrictQueuesBySuffix(queues[1..], suffix);
      assert forall q :: q in queues <==> q == queues[0] || q in queues[1..];
      if EndsWith(queues[0], suffix) then rest else [queues[0]] + rest
  }

  /** A worker never listens on its own output queue. */
  lemma OutputQueueNotListened(queuePrefix: string, modelName: string, queues: seq<string>)
    ensures WorkerQueueNames(queuePrefix, modelName).1 !in RestrictQueuesBySuffix(queues, OUTPUT_QUEUE_SUFFIX)
  {
  }

  /** The queues of the worker tests: the one ending in `_output` is dropped. */
  lemma RestrictExample()
    ensures RestrictQueuesBySuffix(["test_input", "test_input_output", "test_another_input"], "_output")
      == ["test_input", "test_another_input"]
  {
    assert !EndsWith("test_input", "_output");
    assert "test_input_output"[10..] == "_output";
    assert EndsWith("test_input_output", "_output");
    assert !EndsWith("test_another_input", "_output");
    assert ["test_input", "test_input_output", "test_another_input"][1..] == ["test_input_output", "test_another_input"];
    assert ["test_input_output", "test_another_input"][1..] == ["test_another_input"];
  }

  /** `[Message(**json.loads(message.body)) for message, queue in batch]`: every payload decoded, or the first failure. */
  function DecodeAll(batch: seq<Received>, decode: Json -> Result<Message, Exc>): (r: Result<seq<Message>, Exc>)
    ensures r.Ok? <==> forall i :: 0 <= i < |batch| ==> decode(batch[i].payload).Ok?
    ensures r.Ok? ==> |r.value| == |batch| && forall i :: 0 <= i < |batch| ==> r.value[i] == decode(batch[i].payload).value
    ensures r.Err? ==>
      exists i :: 0 <= i < |batch| && decode(batch[i].payload) == Err(r.error) && forall j :: 0 <= j < i ==> decode(batch[j].payload).Ok?
  {
    if batch == [] then Ok([])
    else
      match decode(batch[0].payload)
      case Err(e) => Err(e)
      case Ok(m) =>
        match DecodeAll(batch[1..], decode)
        case Err(e) =>
          ghost var i :| 0 <= i < |batch[1..]| && decode(batch[1..][i].payload) == Err(e)
            && forall j :: 0 <= j < i ==> decode(batch[1..][j].payload).Ok?;
          assert decode(batch[i + 1].payload) == Err(e);
          assert forall j :: 0 <= j < i + 1 ==> decode(batch[j].payload).Ok? by {
            forall j | 0 <= j < i + 1 ensures decode(batch[j].payload).Ok? {
              if j > 0 { assert batch[j] == batch[1..][j - 1]; }
            }
          }
          Err(e)
        case Ok(ms) => Ok([m] + ms)
  }

  /**
   * What `safely_respond` hands back for a batch: the model's responses when
   * every message decodes and the model succeeds, and nothing otherwise.
   */
  function RespondOutcome(batch: seq<Received>, decode: Json -> Result<Message, Exc>,
                          respond: seq<Message> -> Result<seq<Message>, Exc>): (r: seq<Message>)
    ensures batch == [] ==> r == []
    ensures DecodeAll(batch, decode).Err? ==> r == []
  {
    if batch == [] then []
    else match DecodeAll(batch, decode)
      case Err(_) => []
      case Ok(messages) =>
        match respond(messages)
        case Err(_) => []
        case Ok(responses) => responses
  }

  /** A successful model call yields exactly its responses; a failed one yields none. */
  lemma RespondOutcomeCases(batch: seq<Received>, decode: Json -> Result<Message, Exc>,
                            respond: seq<Message> -> Result<seq<Message>, Exc>)
    requires batch != [] && DecodeAll(batch, decode).Ok?
    ensures respond(DecodeAll(batch, decode).value).Ok? ==>
      RespondOutcome(batch, decode, respond) == respond(DecodeAll(batch, decode).value).value
    ensures respond(DecodeAll(batch, decode).value).Err? ==> RespondOutcome(batch, decode, respond) == []
    ensures |DecodeAll(batch, decode).value| == |batch|
  {
  }

  /** The push log entries for sending `responses` to `queue`, in order. */
  function PushesTo(queue: string, responses: seq<Message>): (r: seq<(string, Message)>)
    ensures |r| == |responses|
    ensures forall i :: 0 <= i < |responses| ==> r[i] == (queue, responses[i])
  {
    seq(|responses|, i requires 0 <= i < |responses| => (queue, responses[i]))
  }

  class QueueWorker {
    var inputQueueName: string
    var outputQueueName: string
    var inputQueues: seq<string>
    var outputQueues: seq<string>
    var allQueues: seq<string>
    /** The batch sizes asked of the backend, one per cycle. */
    var requests: seq<int>
    /** Messages received and not yet deleted. */
    var inFlight: multiset<Received>
    /** Each `delete_messages` call's batch, in order. */
    var deletions: seq<seq<Received>>
    /** Each `push_message` call: target queue and message, in order. */
    var pushed: seq<(string, Message)>

    /**
     * `QueueWorker(input_queue_name, output_queue_name)`; `existing` stands
     * for `get_or_create_queues`, the queues the backend has under a name,
     * and `storeQueueMap` for the backend's `store_queue_map`.
     */
    constructor (inputQueueName: string, outputQueueName: string, existing: string -> seq<string>,
                 storeQueueMap: seq<string> -> seq<string>)
      requires outputQueueName != ""
      ensures this.inputQueueName == inputQueueName
      ensures this.outputQueueName == Queues.GetOutputQueueName(inputQueueName, Some(outputQueueName))
      ensures inputQueues == RestrictQueuesBySuffix(existing(inputQueueName), OUTPUT_QUEUE_SUFFIX)
      ensures outputQueues == existing(outputQueueName)
      ensures allQueues == storeQueueMap(inputQueues + outputQueues)
      ensures requests == [] && inFlight == multiset{} && deletions == [] && pushed == []
    {
      this.inputQueueName := inputQueueName;
      var input := RestrictQueuesBySuffix(existing(inputQueueName), OUTPUT_QUEUE_SUFFIX);
      var output := existing(outputQueueName);
      inputQueues := input;
      this.outputQueueName := Queues.GetOutputQueueName(inputQueueName, Some(outputQueueName));
      outputQueues := output;
      allQueues := storeQueueMap(input + output);
      requests := [];
      inFlight := multiset{};
      deletions := [];
      pushed := [];
    }

    /** The backend's `receive_messages(batch_size)`: the batch is now in flight. */
    method ReceiveMessages(batchSize: int, receive: int -> seq<Received>) returns (batch: seq<Received>)
      modifies this`requests, this`inFlight
      ensures batch == receive(batchSize)
      ensures requests == old(requests) + [batchSize]
      ensures inFlight == old(inFlight) + multiset(batch)
    {
      batch := receive(batchSize);
      requests := requests + [batchSize];
      inFlight := inFlight + multiset(batch);
    }

    /** The backend's `delete_messages(batch)`: the batch is acknowledged. */
    method DeleteMessages(batch: seq<Received>)
      modifies this`inFlight, this`deletions
      ensures inFlight == old(inFlight) - multiset(batch)
      ensures deletions == old(deletions) + [batch]
    {
      inFlight := inFlight - multiset(batch);
      deletions := deletions + [batch];
    }

    /**
     * `safely_respond(model)`: receive `BATCH_SIZE` messages; if any arrived,
     * try the model on them, swallow its failure, and delete the whole batch
     * either way.
     */
    method SafelyRespond(batchSize: int, receive: int -> seq<Received>, decode: Json -> Result<Message, Exc>,
                         respond: seq<Message> -> Result<seq<Message>, Exc>) returns (responses: seq<Message>)
      modifies this`requests, this`inFlight, this`deletions
      ensures requests == old(requests) + [batchSize]
      ensures inFlight == old(inFlight)
      ensures receive(batchSize) == [] ==> deletions == old(deletions)
      ensures receive(batchSize) != [] ==> deletions == old(deletions) + [receive(batchSize)]
      ensures responses == RespondOutcome(receive(batchSize), decode, respond)
    {
      var batch := ReceiveMessages(batchSize, receive);
      responses := [];
      if batch != [] {
        var decoded := DecodeAll(batch, decode);
        if decoded.Ok? {
          var outcome := respond(decoded.value);
          if outcome.Ok? {
            responses := outcome.value;
          }
        }
        DeleteMessages(batch);
      }
      assert inFlight == old(inFlight) + multiset(batch) - (if batch == [] then multiset{} else multiset(batch));
    }

    /** `push_message(queue, message)` on the backend. */
    method PushMessage(queue: string, message: Message)
      modifies this`pushed
      ensures pushed == old(pushed) + [(queue, message)]
    {
      pushed := pushed + [(queue, message)];
    }

    /** `process(model)`: one cycle, then each response pushed once to the output queue, in order. */
    method Process(batchSize: int, receive: int -> seq<Received>, decode: Json -> Result<Message, Exc>,
                   respond: seq<Message> -> Result<seq<Message>, Exc>)
      modifies this`requests, this`inFlight, this`deletions, this`pushed
      ensures requests == old(requests) + [batchSize]
      ensures inFlight == old(inFlight)
      ensures receive(batchSize) == [] ==> deletions == old(deletions)
      ensures receive(batchSize) != [] ==> deletions == old(deletions) + [receive(batchSize)]
      ensures pushed == old(pushed) + PushesTo(outputQueueName, RespondOutcome(receive(batchSize), decode, respond))
    {
      var responses := SafelyRespond(batchSize, receive, decode, respond);
      var i := 0;
      while i < |responses|
        invariant 0 <= i <= |responses|
        invariant requests == old(requests) + [batchSize]
        invariant inFlight == old(inFlight)
        invariant receive(batchSize) == [] ==> deletions == old(deletions)
        invariant receive(batchSize) != [] ==> deletions == old(deletions) + [receive(batchSize)]
        invariant pushed == old(pushed) + PushesTo(outputQueueName, responses[..i])
      {
        PushMessage(outputQueueName, responses[i]);
        assert PushesTo(outputQueueName, responses[..i + 1]) == PushesTo(outputQueueName, responses[..i]) + [(outputQueueName, responses[i])];
        i := i + 1;
      }
      assert responses[..i] == responses;
    }
  }
}
