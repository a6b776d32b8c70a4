/** The queues of steering and follow-up messages. */
module AgentQueue {
  import opened AgentEvents

  datatype QueueMode = All | OneAtATime

  /** What reaches a queue between two polls: messages in order, and the mode the queue is left in. */
  datatype Arrival = Arrival(messages: seq<Message>, mode: QueueMode)

  /** What reaches the steering queue and the follow-up queue. */
  datatype Arrivals = Arrivals(steered: Arrival, followed: Arrival)

  predicate AllStandalone(messages: seq<Message>) {
    forall m | m in messages :: Standalone(m)
  }

  /** What a poll takes from a queue, and what it leaves. */
  function Front(mode: QueueMode, messages: seq<Message>): (taken: seq<Message>)
    ensures taken <= messages && (taken == [] <==> messages == [])
  {
    if mode.All? || messages == [] then messages else [messages[0]]
  }

  function Rest(mode: QueueMode, messages: seq<Message>): (left: seq<Message>)
    ensures Front(mode, messages) + left == messages
  {
    messages[|Front(mode, messages)|..]
  }

  class PendingMessageQueue {
    var messages: seq<Message>
    var mode: QueueMode

    constructor (mode: QueueMode)
      ensures messages == [] && this.mode == mode
    {
      messages, this.mode := [], mode;
    }

    method Enqueue(message: Message)
      modifies this
      ensures messages == old(messages) + [message] && mode == old(mode)
    {
      messages := messages + [message];
    }

    method Receive(arrival: Arrival)
      modifies this
      ensures messages == old(messages) + arrival.messages && mode == arrival.mode
    {
      for i := 0 to |arrival.messages|
        invariant messages == old(messages) + arrival.messages[..i]
      {
        Enqueue(arrival.messages[i]);
      }
      mode := arrival.mode;
    }

    /** Takes everything or the first message, by mode. */
    method Drain() returns (taken: seq<Message>)
      modifies this
      ensures taken == Front(mode, old(messages)) && messages == Rest(mode, old(messages)) && mode == old(mode)
    {
      if mode.All? {
        taken := messages;
        messages := [];
      } else if messages == [] {
        taken := [];
      } else {
        taken := [messages[0]];
        messages := messages[1..];
      }
    }

    method Clear()
      modifies this
      ensures messages == [] && mode == old(mode)
    {
      messages := [];
    }
  }
}
