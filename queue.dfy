/**
 * The queue base class: it stores the input name, the output name and the
 * batch size, derives a default output name, and runs one
 * receive/respond/send pass. Receiving, responding and sending belong to
 * the concrete queue, so they are parameters here.
 */
module Queues {
  import opened Wrappers
  import opened Strings
  import opened JsonValues

  /** The suffix of a derived output queue name. */
  const OUTPUT_SUFFIX: string := "-output"

  /** `get_output_queue_name`: an absent or empty override gives `<input>-output`; otherwise the override is used. */
  function GetOutputQueueName(inputQueueName: string, outputQueueName: Option<string> := None): (r: string)
    ensures outputQueueName.Some? && outputQueueName.value != "" ==> r == outputQueueName.value
    ensures r != ""
  {
    if outputQueueName.None? || outputQueueName.value == "" then inputQueueName + OUTPUT_SUFFIX
    else outputQueueName.value
  }

  /** Without an override, the output name extends the input name by `-output`, so the two never coincide. */
  lemma DerivedOutputName(inputQueueName: string, outputQueueName: Option<string>)
    requires outputQueueName.None? || outputQueueName.value == ""
    ensures var r := GetOutputQueueName(inputQueueName, outputQueueName);
      && |r| == |inputQueueName| + |OUTPUT_SUFFIX|
      && r[..|inputQueueName|] == inputQueueName
      && EndsWith(r, OUTPUT_SUFFIX)
      && r != inputQueueName
  {
    var r := GetOutputQueueName(inputQueueName, outputQueueName);
    assert r == inputQueueName + OUTPUT_SUFFIX;
    assert r[|r| - |OUTPUT_SUFFIX|..] == OUTPUT_SUFFIX;
  }

  /** Feeding a derived output name back in as the override returns it unchanged. */
  lemma OutputNameStable(inputQueueName: string, outputQueueName: Option<string>)
    ensures var r := GetOutputQueueName(inputQueueName, outputQueueName);
      GetOutputQueueName(inputQueueName, Some(r)) == r
  {
    var r := GetOutputQueueName(inputQueueName, outputQueueName);
    assert r != "";
  }

  /** The names the queue tests expect. */
  lemma OutputNameExamples()
    ensures GetOutputQueueName("test") == "test-output"
    ensures GetOutputQueueName("test", Some("new-output")) == "new-output"
  {
    assert "test" + OUTPUT_SUFFIX == "test-output";
  }

  /** The responses to a batch: one per message, in receipt order. */
  function Responses(respond: Json -> Json, messages: seq<Json>): (r: seq<Json>)
    ensures |r| == |messages|
    ensures forall i :: 0 <= i < |messages| ==> r[i] == respond(messages[i])
  {
    if messages == [] then [] else [respond(messages[0])] + Responses(respond, messages[1..])
  }

  /** Responding to one more message appends its response. */
  lemma ResponsesSnoc(respond: Json -> Json, messages: seq<Json>, m: Json)
    ensures Responses(respond, messages + [m]) == Responses(respond, messages) + [respond(m)]
  {
    var r := Responses(respond, messages + [m]);
    assert forall i :: 0 <= i < |messages| ==> (messages + [m])[i] == messages[i];
    assert r[|messages|] == respond((messages + [m])[|messages|]);
  }

  class Queue {
    var inputQueueName: string
    var outputQueueName: string
    var batchSize: int
    /** The batch sizes asked of `receive_messages`, one per pass. */
    var requests: seq<int>
    /** The messages handed to `respond`, in order. */
    var responded: seq<Json>
    /** The responses given to `send_message`, in order. */
    var sent: seq<Json>

    /** `Queue(input_queue_name, output_queue_name, batch_size)`. */
    constructor (inputQueueName: string, outputQueueName: Option<string>, batchSize: int)
      ensures this.inputQueueName == inputQueueName
      ensures this.outputQueueName == GetOutputQueueName(inputQueueName, outputQueueName)
      ensures this.batchSize == batchSize
      ensures requests == [] && responded == [] && sent == []
    {
      this.inputQueueName := inputQueueName;
      this.outputQueueName := GetOutputQueueName(inputQueueName, outputQueueName);
      this.batchSize := batchSize;
      requests := [];
      responded := [];
      sent := [];
    }

    /**
     * `process_messages`: ask for `batch_size` messages, then respond to each
     * one and send its response, one message at a time in receipt order.
     */
    method ProcessMessages(receive: int -> seq<Json>, respond: Json -> Json)
      modifies this`requests, this`responded, this`sent
      ensures requests == old(requests) + [batchSize]
      ensures responded == old(responded) + receive(batchSize)
      ensures sent == old(sent) + Responses(respond, receive(batchSize))
    {
      var messages := receive(batchSize);
      requests := requests + [batchSize];
      var i := 0;
      while i < |messages|
        invariant 0 <= i <= |messages|
        invariant requests == old(requests) + [batchSize]
        invariant responded == old(responded) + messages[..i]
        invariant sent == old(sent) + Responses(respond, messages[..i])
      {
        var response := respond(messages[i]);
        ResponsesSnoc(respond, messages[..i], messages[i]);
        assert messages[..i + 1] == messages[..i] + [messages[i]];
        responded := responded + [messages[i]];
        sent := sent + [response];
        i := i + 1;
      }
      assert messages[..i] == messages;
    }
  }
}
