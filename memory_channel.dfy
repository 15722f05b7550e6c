/** The in-memory outbound channel: a list of the messages sent to one peer. */
module Channel {

  class MemoryChannel<M> {
    var messages: seq<M>

    constructor ()
      ensures messages == []
    {
      messages := [];
    }

    /** `send`: the message goes at the end; earlier messages stay as they were. */
    method Send(message: M)
      modifies this
      ensures messages == old(messages) + [message]
      ensures |messages| == |old(messages)| + 1 && messages[|messages| - 1] == message
      ensures messages[..|old(messages)|] == old(messages)
    {
      messages := messages + [message];
    }

    /** `pop_all`: everything sent so far, in send order, and an empty list left behind. */
    method PopAll() returns (msgs: seq<M>)
      modifies this
      ensures msgs == old(messages) && messages == []
    {
      msgs := messages;
      messages := [];
    }
  }

  /** A client of the channel: what is sent between two `pop_all` calls comes
      back in order, and a second `pop_all` right after the first returns nothing. */
  method SendThenDrain<M>(ch: MemoryChannel<M>, a: M, b: M) returns (first: seq<M>, second: seq<M>)
    modifies ch
    ensures first == old(ch.messages) + [a, b]
    ensures second == [] && ch.messages == []
  {
    ch.Send(a);
    ch.Send(b);
    first := ch.PopAll();
    second := ch.PopAll();
  }
}
