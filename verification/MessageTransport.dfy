/** Messages over the transport: what the reader of one endpoint makes of what the other sends. */
module MessageTransport {
  import opened FifoBuffers
  import opened TcpTypes
  import opened TcpSystem
  import opened TcpTheorems
  import opened MessageFraming

  /** What `y` makes of what `x` sends, a chunk of `msg` and what follows it: the bytes `Receive`
      has returned, in whatever pieces, complete the message exactly when they hold the whole
      chunk, and then it is `msg`. */
  predicate Understands(x: Half, y: Half, msg: seq<byte>, rest: seq<byte>)
    requires |msg| <= MESSAGE_SIZE_MAX
  {
    y.t.shutdown.NoShutdown? && x.sent <= CreateMessageChunk(msg).bytes + rest ==>
      && (ReadComplete(y.got) <==> HEADER + |msg| <= |y.got|)
      && (ReadComplete(y.got) ==> BytesOf(ReceivedData(y.got)) == msg)
  }

  lemma PrefixIsUnderstood(x: Half, y: Half, msg: seq<byte>, rest: seq<byte>)
    requires |msg| <= MESSAGE_SIZE_MAX && (y.t.shutdown.NoShutdown? ==> y.got <= x.sent)
    ensures Understands(x, y, msg, rest)
  {
    if y.t.shutdown.NoShutdown? && x.sent <= CreateMessageChunk(msg).bytes + rest {
      PrefixYieldsMessage(msg, CreateMessageChunk(msg).bytes + rest, y.got);
    }
  }

  /** Whatever the network does, a message and its answer arrive as they were sent: any message
      from each end to the other. */
  lemma MessageArrivesIntact(s: Sys, steps: seq<Step>, msg: seq<byte>, rest: seq<byte>,
                             answer: seq<byte>, more: seq<byte>)
    requires Initial(s) && |msg| <= MESSAGE_SIZE_MAX && |answer| <= MESSAGE_SIZE_MAX
    ensures SysWf(s)
    ensures var u := Run(s, steps);
            Understands(u.a, u.b, msg, rest) && Understands(u.b, u.a, answer, more)
  {
    EndToEnd(s, steps);
    var u := Run(s, steps);
    hide Run;
    PrefixIsUnderstood(u.a, u.b, msg, rest);
    PrefixIsUnderstood(u.b, u.a, answer, more);
  }
}
