/**
 * The Redis-backed queue. The Redis server is a map from list names to the
 * lists they hold. LPOP takes the head of a list and RPUSH appends to its
 * tail. Each element stands for the JSON text Redis holds, decoded once.
 */
module RedisQueues {
  import opened Wrappers
  import opened JsonValues
  import Queues

  /** The contents of the Redis server: list name -> list. */
  type Lists = map<string, seq<Json>>

  /** The list stored under `name`; a missing key reads as the empty list, as in Redis. */
  function Queued(lists: Lists, name: string): seq<Json> {
    if name in lists then lists[name] else []
  }

  /** `LPOP name`: the head of the list, if any; a list that becomes empty loses its key. */
  function Lpop(lists: Lists, name: string): (r: (Option<Json>, Lists))
    ensures Queued(lists, name) == [] ==> r == (None, lists)
    ensures Queued(lists, name) != [] ==>
      && r.0 == Some(Queued(lists, name)[0])
      && Queued(r.1, name) == Queued(lists, name)[1..]
    ensures forall other :: other != name ==> Queued(r.1, other) == Queued(lists, other)
  {
    var q := Queued(lists, name);
    if q == [] then (None, lists)
    else if |q| == 1 then (Some(q[0]), lists - {name})
    else (Some(q[0]), lists[name := q[1..]])
  }

  /** `RPUSH name message`. */
  function Rpush(lists: Lists, name: string, message: Json): (r: Lists)
    ensures Queued(r, name) == Queued(lists, name) + [message]
    ensures forall other :: other != name ==> Queued(r, other) == Queued(lists, other)
  {
    lists[name := Queued(lists, name) + [message]]
  }

  /** Pushing several messages one after another. */
  function PushAll(lists: Lists, name: string, messages: seq<Json>): Lists
    decreases |messages|
  {
    if messages == [] then lists
    else PushAll(Rpush(lists, name, messages[0]), name, messages[1..])
  }

  lemma {:induction false} PushAllQueued(lists: Lists, name: string, messages: seq<Json>)
    ensures Queued(PushAll(lists, name, messages), name) == Queued(lists, name) + messages
    decreases |messages|
  {
    if messages != [] {
      PushAllQueued(Rpush(lists, name, messages[0]), name, messages[1..]);
      assert [messages[0]] + messages[1..] == messages;
    }
  }

  /**
   * `receive_messages(batch_size)` over the list store: up to `n` pops from
   * the head; the first pop that gives nothing, or a value that is false in
   * Python, ends the batch. Such a value has already been popped and is not
   * returned.
   */
  function Receive(lists: Lists, queue: string, n: int): (seq<Json>, Lists)
    decreases n
  {
    if n <= 0 then ([], lists)
    else
      var (popped, rest) := Lpop(lists, queue);
      if popped.Some? && Truthy(popped.value) then
        var (more, after) := Receive(rest, queue, n - 1);
        ([popped.value] + more, after)
      else ([], rest)
  }

  /** One step of a receive: a truthy pop joins the batch, anything else ends it. */
  lemma ReceiveUnfold(lists: Lists, queue: string, n: int)
    requires n > 0
    ensures var (popped, rest) := Lpop(lists, queue);
      Receive(lists, queue, n)
        == if popped.Some? && Truthy(popped.value)
           then ([popped.value] + Receive(rest, queue, n - 1).0, Receive(rest, queue, n - 1).1)
           else ([], rest)
  {
  }

  /** Receiving from a queue whose head is one of the values Python treats as false drops that value and returns nothing. */
  lemma ReceiveDropsFalsy(lists: Lists, queue: string, n: int)
    requires n >= 1 && Queued(lists, queue) != [] && !Truthy(Queued(lists, queue)[0])
    ensures Receive(lists, queue, n).0 == []
    ensures Queued(Receive(lists, queue, n).1, queue) == Queued(lists, queue)[1..]
  {
    var (popped, rest) := Lpop(lists, queue);
    assert popped == Some(Queued(lists, queue)[0]);
  }

  /**
   * What a batch is: at most `n` messages, all truthy, forming a prefix of
   * the list. Afterwards the list has lost exactly that prefix, plus the one
   * falsy value that stopped the batch, if any. No other list changes.
   */
  lemma {:induction false} ReceivePrefix(lists: Lists, queue: string, n: int)
    ensures var (ms, after) := Receive(lists, queue, n);
      var q := Queued(lists, queue);
      && |ms| <= |q| && (n >= 0 ==> |ms| <= n)
      && ms == q[..|ms|]
      && (forall i :: 0 <= i < |ms| ==> Truthy(ms[i]))
      && (|ms| >= n || |ms| == |q| || !Truthy(q[|ms|]))
      && (Queued(after, queue) == q[|ms|..] || (|ms| < |q| && !Truthy(q[|ms|]) && Queued(after, queue) == q[|ms| + 1..]))
      && (|ms| < n && |ms| < |q| ==> Queued(after, queue) == q[|ms| + 1..])
      && (forall other :: other != queue ==> Queued(after, other) == Queued(lists, other))
    decreases n
  {
    var q := Queued(lists, queue);
    if n > 0 {
      var (popped, rest) := Lpop(lists, queue);
      if popped.Some? && Truthy(popped.value) {
        ReceivePrefix(rest, queue, n - 1);
        var (more, after) := Receive(rest, queue, n - 1);
        assert Queued(rest, queue) == q[1..];
        assert Receive(lists, queue, n) == ([q[0]] + more, after);
        assert q[1..][..|more|] == q[1..|more| + 1];
        assert q[1..][|more|..] == q[|more| + 1..];
      }
    }
  }

  /** When every queued value is truthy, a batch is exactly the first `n` of them (or all of them) and the list keeps the rest. */
  lemma ReceiveAllTruthy(lists: Lists, queue: string, n: int)
    requires forall i :: 0 <= i < |Queued(lists, queue)| ==> Truthy(Queued(lists, queue)[i])
    ensures var q := Queued(lists, queue);
      var k := if n <= 0 then 0 else if n < |q| then n else |q|;
      && Receive(lists, queue, n).0 == q[..k]
      && Queued(Receive(lists, queue, n).1, queue) == q[k..]
  {
    ReceivePrefix(lists, queue, n);
  }

  /** A batch size of zero or less receives nothing and leaves the store as it was. */
  lemma ReceiveNothing(lists: Lists, queue: string, n: int)
    requires n <= 0
    ensures Receive(lists, queue, n) == ([], lists)
  {
  }

  /** Messages pushed onto an empty list are received in push order. */
  lemma PushThenReceive(lists: Lists, queue: string, messages: seq<Json>)
    requires Queued(lists, queue) == []
    requires forall i :: 0 <= i < |messages| ==> Truthy(messages[i])
    ensures Receive(PushAll(lists, queue, messages), queue, |messages|).0 == messages
    ensures Queued(Receive(PushAll(lists, queue, messages), queue, |messages|).1, queue) == []
  {
    PushAllQueued(lists, queue, messages);
    assert Queued(PushAll(lists, queue, messages), queue) == messages;
    ReceiveAllTruthy(PushAll(lists, queue, messages), queue, |messages|);
  }

  class RedisQueue {
    /** `input_queue_name` and `output_queue_name`, as the base queue sets them. */
    var inputQueueName: string
    var outputQueueName: string
    var batchSize: int
    /** `input_queue` and `output_queue`, as given. */
    var inputQueue: string
    var outputQueue: string
    /** The lists held by the Redis server the client talks to. */
    var lists: Lists

    /** `RedisQueue(input_queue_name, output_queue_name, batch_size)` talking to a server holding `lists`. */
    constructor (inputQueueName: string, outputQueueName: string, batchSize: int, lists: Lists)
      ensures this.inputQueue == inputQueueName && this.outputQueue == outputQueueName
      ensures this.inputQueueName == inputQueueName
      ensures this.outputQueueName == Queues.GetOutputQueueName(inputQueueName, Some(outputQueueName))
      ensures this.batchSize == batchSize
      ensures this.lists == lists
    {
      this.inputQueue := inputQueueName;
      this.outputQueue := outputQueueName;
      this.inputQueueName := inputQueueName;
      this.outputQueueName := Queues.GetOutputQueueName(inputQueueName, Some(outputQueueName));
      this.batchSize := batchSize;
      this.lists := lists;
    }

    /** `pop_message(queue)`: LPOP. */
    method PopMessage(queue: string) returns (message: Option<Json>)
      modifies this`lists
      ensures (message, lists) == Lpop(old(lists), queue)
    {
      var (popped, rest) := Lpop(lists, queue);
      lists := rest;
      message := popped;
    }

    /** `push_message(queue, message)`: RPUSH, and the message is handed back. */
    method PushMessage(queue: string, message: Json) returns (r: Json)
      modifies this`lists
      ensures lists == Rpush(old(lists), queue, message)
      ensures r == message
    {
      lists := Rpush(lists, queue, message);
      r := message;
    }

    /** `receive_messages(batch_size=1)`: pop from the input list until the batch is full or a pop gives nothing truthy. */
    method ReceiveMessages(batchSize: int := 1) returns (messages: seq<Json>)
      modifies this`lists
      ensures (messages, lists) == Receive(old(lists), inputQueueName, batchSize)
    {
      var queue := inputQueueName;
      ghost var goal := Receive(lists, queue, batchSize);
      messages := [];
      var i := 0;
      assert goal.0 == messages + goal.0;
      while i < batchSize
        invariant 0 <= i && (batchSize >= 0 ==> i <= batchSize)
        invariant goal == (messages + Receive(lists, queue, batchSize - i).0, Receive(lists, queue, batchSize - i).1)
      {
        ghost var before := lists;
        var raw := PopMessage(queue);
        ReceiveUnfold(before, queue, batchSize - i);
        if raw.Some? && Truthy(raw.value) {
          ghost var more := Receive(lists, queue, batchSize - i - 1).0;
          assert messages + ([raw.value] + more) == (messages + [raw.value]) + more;
          messages := messages + [raw.value];
        } else {
          assert messages + [] == messages;
          break;
        }
        i := i + 1;
      }
      assert messages + [] == messages;
    }
  }
}
