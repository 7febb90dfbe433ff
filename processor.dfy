/**
 * The callback processor: it listens on the workers' output queues (input
 * name + `_output` + the deployment suffix), and for each batch makes one
 * best-effort HTTP callback per message before deleting the whole batch.
 * The queue backend and the HTTP POST are parameters; a POST either
 * delivers or fails, and a failure is only logged.
 */
module Processors {
  import opened Wrappers
  import opened Strings
  import opened JsonValues
  import opened BaseException
  import opened Schemas
  import opened Workers

  /** The queue name the processor listens on for a given input name and queue suffix. */
  function ProcessorQueueName(inputQueueName: string, queueSuffix: string): (name: string)
    ensures EndsWith(name, OUTPUT_QUEUE_SUFFIX + queueSuffix)
    ensures |name| == |inputQueueName| + |OUTPUT_QUEUE_SUFFIX| + |queueSuffix| && name[..|inputQueueName|] == inputQueueName
  {
    var name := inputQueueName + (OUTPUT_QUEUE_SUFFIX + queueSuffix);
    assert name[|name| - |OUTPUT_QUEUE_SUFFIX + queueSuffix|..] == OUTPUT_QUEUE_SUFFIX + queueSuffix;
    assert name[..|inputQueueName|] == inputQueueName;
    name
  }

  /** `restrict_queues_to_suffix(queues, suffix)`: the queues whose names end with `suffix`, in order. */
  function RestrictQueuesToSuffix(queues: seq<string>, suffix: string): (r: seq<string>)
    ensures |r| <= |queues|
    ensures forall q :: q in r <==> q in queues && EndsWith(q, suffix)
  {
    if queues == [] then []
    else
      var rest := RestrictQueuesToSuffix(queues[1..], suffix);
      assert forall q :: q in queues <==> q == queues[0] || q in queues[1..];
      if EndsWith(queues[0], suffix) then [queues[0]] + rest else rest
  }

  /** The queue a processor listens on survives its own restriction whenever the backend has it. */
  lemma ListenedQueueKept(inputQueueName: string, queueSuffix: string, queues: seq<string>)
    requires ProcessorQueueName(inputQueueName, queueSuffix) in queues
    ensures ProcessorQueueName(inputQueueName, queueSuffix) in RestrictQueuesToSuffix(queues, OUTPUT_QUEUE_SUFFIX + queueSuffix)
  {
  }

  /** With no suffix, a processor for a worker's input name listens exactly on that worker's output queue. */
  lemma ProcessorReadsWorkerOutput(queuePrefix: string, modelName: string)
    ensures var (input, output) := WorkerQueueNames(queuePrefix, modelName);
      ProcessorQueueName(input, "") == output
  {
    var (input, output) := WorkerQueueNames(queuePrefix, modelName);
    assert OUTPUT_QUEUE_SUFFIX + "" == OUTPUT_QUEUE_SUFFIX;
  }

  /** One callback attempt: the URL it targeted (if the message had one), the message, and whether it was delivered. */
  datatype Callback = Callback(url: Option<string>, message: Message, delivered: bool)

  /** The attempt `send_callback` makes for a message; a message without a callback URL cannot be delivered. */
  function Attempt(message: Message, post: (string, Message) -> bool): (c: Callback)
    ensures c.url == message.body.callbackUrl && c.message == message
    ensures c.delivered ==> message.body.callbackUrl.Some?
  {
    var url := message.body.callbackUrl;
    Callback(url, message, url.Some? && post(url.value, message))
  }

  /** The attempts for a list of messages: one each, in order. */
  function Attempts(messages: seq<Message>, post: (string, Message) -> bool): (r: seq<Callback>)
    ensures |r| == |messages|
    ensures forall i :: 0 <= i < |messages| ==> r[i] == Attempt(messages[i], post)
  {
    seq(|messages|, i requires 0 <= i < |messages| => Attempt(messages[i], post))
  }

  class QueueProcessor {
    var inputQueueName: string
    var inputQueues: seq<string>
    var allQueues: seq<string>
    var batchSize: int
    /** The batch sizes asked of the backend, one per cycle. */
    var requests: seq<int>
    /** Messages received and not yet deleted. */
    var inFlight: multiset<Received>
    /** Each `delete_messages` call's batch, in order. */
    var deletions: seq<seq<Received>>
    /** Every callback attempt, in order. */
    var callbacks: seq<Callback>

    /**
     * `QueueProcessor(input_queue_name, batch_size=1)`; `queueSuffix` is the
     * deployment's queue suffix, `existing` stands for `get_or_create_queues`
     * and `storeQueueMap` for the backend's `store_queue_map`.
     */
    constructor (inputQueueName: string, queueSuffix: string, existing: string -> seq<string>,
                 storeQueueMap: seq<string> -> seq<string>, batchSize: int := 1)
      ensures this.inputQueueName == inputQueueName
      ensures inputQueues == RestrictQueuesToSuffix(existing(ProcessorQueueName(inputQueueName, queueSuffix)), OUTPUT_QUEUE_SUFFIX + queueSuffix)
      ensures allQueues == storeQueueMap(inputQueues)
      ensures this.batchSize == batchSize
      ensures requests == [] && inFlight == multiset{} && deletions == [] && callbacks == []
    {
      this.inputQueueName := inputQueueName;
      var qSuffix := OUTPUT_QUEUE_SUFFIX + queueSuffix;
      var input := RestrictQueuesToSuffix(existing(ProcessorQueueName(inputQueueName, queueSuffix)), qSuffix);
      inputQueues := input;
      allQueues := storeQueueMap(input);
      this.batchSize := batchSize;
      requests := [];
      inFlight := multiset{};
      deletions := [];
      callbacks := [];
    }

    /** `send_callback(message)`: POST the message to its callback URL; a failure is logged, never raised. */
    method SendCallback(message: Message, post: (string, Message) -> bool)
      modifies this`callbacks
      ensures callbacks == old(callbacks) + [Attempt(message, post)]
    {
      var url := message.body.callbackUrl;
      var delivered := false;
      if url.Some? {
        delivered := post(url.value, message);
      }
      callbacks := callbacks + [Callback(url, message, delivered)];
    }

    /**
     * `send_callbacks()`: receive `batch_size` messages; decode them all
     * (a failure here propagates, and the batch stays in flight), make one
     * callback attempt per message in order, then delete the whole batch.
     */
    method SendCallbacks(receive: int -> seq<Received>, decode: Json -> Result<Message, Exc>,
                         post: (string, Message) -> bool) returns (err: Option<Exc>)
      modifies this`requests, this`inFlight, this`deletions, this`callbacks
      ensures requests == old(requests) + [batchSize]
      ensures var batch := receive(batchSize);
        && (batch == [] ==> err.None? && inFlight == old(inFlight) && deletions == old(deletions) && callbacks == old(callbacks))
        && (batch != [] && DecodeAll(batch, decode).Err? ==>
              && err == Some(DecodeAll(batch, decode).error)
              && inFlight == old(inFlight) + multiset(batch)
              && deletions == old(deletions) && callbacks == old(callbacks))
        && (batch != [] && DecodeAll(batch, decode).Ok? ==>
              && err.None?
              && callbacks == old(callbacks) + Attempts(DecodeAll(batch, decode).value, post)
              && deletions == old(deletions) + [batch]
              && inFlight == old(inFlight))
    {
      var batch := receive(batchSize);
      requests := requests + [batchSize];
      inFlight := inFlight + multiset(batch);
      err := None;
      if batch != [] {
        var decoded := DecodeAll(batch, decode);
        if decoded.Err? {
          return Some(decoded.error);
        }
        var bodies := decoded.value;
        var i := 0;
        while i < |bodies|
          invariant 0 <= i <= |bodies|
          invariant requests == old(requests) + [batchSize]
          invariant inFlight == old(inFlight) + multiset(batch)
          invariant deletions == old(deletions)
          invariant callbacks == old(callbacks) + Attempts(bodies[..i], post)
        {
          SendCallback(bodies[i], post);
          assert Attempts(bodies[..i + 1], post) == Attempts(bodies[..i], post) + [Attempt(bodies[i], post)];
          i := i + 1;
        }
        assert bodies[..i] == bodies;
        inFlight := inFlight - multiset(batch);
        deletions := deletions + [batch];
      } else {
        assert inFlight == old(inFlight);
      }
    }
  }
}
