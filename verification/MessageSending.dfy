/** The sending side of extra/pseudo_tcp/pseudo_tcp_message.cpp: connections come and go, and each
    calls its response callback. */
module MessageSending {
  import opened Numbers
  import opened FifoBuffers
  import opened TcpTypes
  import opened MessageFraming

  /** A connection of a message under way. The last three fields are its history: what it had
      read when it answered, the arguments of its callback, and whether the user ended it. */
  datatype Conn = Conn(number: nat, timeStart: nat, timeout: nat,
                       chunk: seq<byte>, offsetWrite: nat, received: seq<byte>,
                       calledReceive: bool, error: bool, end: bool,
                       taken: seq<byte>, responses: seq<Memory>, userEnded: bool)

  /** The object: its connections in the order of their making, the map from conversation numbers
      to connections, and the numbers to be removed from it. */
  datatype Desk = Desk(conns: seq<Conn>, mapSend: map<nat, nat>, queueEnd: seq<nat>,
                       lastNo: nat, timeout: nat, alive: bool)

  predicate WriteComplete(c: Conn) { |c.chunk| <= c.offsetWrite }

  predicate TimedOut(c: Conn, now: nat) { Wrap32(now - c.timeStart) > c.timeout }

  // ---- The update callback of a connection ----

  predicate Answers(c: Conn) {
    WriteComplete(c) && ReadComplete(c.received) && !c.calledReceive
  }

  /** What the update callback does to the connection; `ended` when it asks for its removal. */
  function Reacts(c: Conn, alive: bool): (r: (Conn, bool)) {
    if c.end then (c, false)
    else if !alive then (c.(end := true, responses := c.responses + [Null]), false)
    else if c.error then (c.(end := true, responses := c.responses + [Null]), true)
    else if Answers(c) then
      (c.(calledReceive := true, end := true, taken := c.received,
          responses := c.responses + [ReceivedData(c.received)]), true)
    else (c, false)
  }

  function Updated(d: Desk, i: nat): Desk
    requires i < |d.conns|
  {
    var (c, ended) := Reacts(d.conns[i], d.alive);
    d.(conns := d.conns[i := c], queueEnd := if ended then d.queueEnd + [c.number] else d.queueEnd)
  }

  function WithConn(d: Desk, i: nat, c: Conn): Desk
    requires i < |d.conns|
  {
    d.(conns := d.conns[i := c])
  }

  // ---- What happens ----

  function Failed(d: Desk, i: nat): Desk
    requires i < |d.conns|
  {
    Updated(WithConn(d, i, d.conns[i].(error := true)), i)
  }

  /** The transport takes at most `n` bytes more of the chunk. */
  function Wrote(d: Desk, i: nat, n: nat): Desk
    requires i < |d.conns|
  {
    var c := d.conns[i];
    if WriteComplete(c) then d
    else
      var c1 := c.(offsetWrite := c.offsetWrite + Min(n, |c.chunk| - c.offsetWrite));
      var d1 := WithConn(d, i, c1);
      if WriteComplete(c1) then Updated(d1, i) else d1
  }

  function Read(d: Desk, i: nat, piece: seq<byte>): Desk
    requires i < |d.conns|
  {
    var c := d.conns[i].(received := d.conns[i].received + piece);
    var d1 := WithConn(d, i, c);
    if ReadComplete(c.received) then Updated(d1, i) else d1
  }

  function UserEnds(d: Desk, i: nat): Desk
    requires i < |d.conns|
  {
    var c := d.conns[i];
    d.(conns := d.conns[i := c.(end := true, userEnded := true)], queueEnd := d.queueEnd + [c.number])
  }

  function NextNo(d: Desk): nat { Wrap32(d.lastNo + 1) }

  function SendChunk(d: Desk, chunk: seq<byte>, timeout: nat, now: nat): Desk {
    var c := Conn(NextNo(d), now, if timeout == 0 then d.timeout else timeout, chunk, 0, [],
                  false, false, false, [], [], false);
    d.(conns := d.conns + [c], mapSend := d.mapSend[c.number := |d.conns|], lastNo := c.number)
  }

  /** The clock reaches the connection in the map under `k`; `closing` are those whose
      transport gives up on it. */
  function ClockOne(d: Desk, k: nat, now: nat, closing: set<nat>): Desk
    requires k in d.mapSend && d.mapSend[k] < |d.conns|
  {
    var i := d.mapSend[k];
    if TimedOut(d.conns[i], now) then
      var d1 := Failed(d, i);
      d1.(queueEnd := d1.queueEnd + [k])
    else if k in closing then Failed(d, i)
    else d
  }

  predicate MapsToConns(d: Desk) {
    forall k :: k in d.mapSend ==> d.mapSend[k] < |d.conns|
  }

  function ClockAll(d: Desk, keys: seq<nat>, now: nat, closing: set<nat>): (u: Desk)
    requires MapsToConns(d) && forall k :: k in keys ==> k in d.mapSend
    ensures u.mapSend == d.mapSend && |u.conns| == |d.conns|
  {
    if keys == [] then d
    else ClockOne(ClockAll(d, keys[..|keys| - 1], now, closing), keys[|keys| - 1], now, closing)
  }

  /** The queued numbers leave the map. */
  function Swept(d: Desk): Desk {
    d.(mapSend := map k | k in d.mapSend && k !in d.queueEnd :: d.mapSend[k], queueEnd := [])
  }

  function Tick(d: Desk, keys: seq<nat>, now: nat, closing: set<nat>): Desk
    requires MapsToConns(d) && forall k :: k in keys ==> k in d.mapSend
  {
    Swept(ClockAll(d, keys, now, closing))
  }

  function Destroyed(d: Desk): Desk { d.(alive := false, mapSend := map[], queueEnd := []) }

  datatype Op =
    | DoSend(chunk: seq<byte>, timeout: nat, now: nat)
    | DoWrote(i: nat, n: nat)
    | DoRead(i: nat, piece: seq<byte>)
    | DoFail(i: nat)
    | DoEnd(i: nat)
    | DoTick(keys: seq<nat>, now: nat, closing: set<nat>)
    | DoDestroy

  /** A step that makes sense in `d`: of an existing connection, over all entries of the map. */
  predicate Possible(d: Desk, op: Op) {
    match op
    case DoSend(_, _, _) => d.alive
    case DoWrote(i, _) => i < |d.conns|
    case DoRead(i, _) => i < |d.conns|
    case DoFail(i) => i < |d.conns|
    case DoEnd(i) => i < |d.conns| && d.alive
    case DoTick(keys, _, _) => d.alive && (set k | k in keys) == d.mapSend.Keys
    case DoDestroy => d.alive
  }

  function Next(d: Desk, op: Op): Desk
    requires MapsToConns(d)
  {
    if !Possible(d, op) then d
    else match op
      case DoSend(chunk, timeout, now) => SendChunk(d, chunk, timeout, now)
      case DoWrote(i, n) => Wrote(d, i, n)
      case DoRead(i, piece) => Read(d, i, piece)
      case DoFail(i) => Failed(d, i)
      case DoEnd(i) => UserEnds(d, i)
      case DoTick(keys, now, closing) => assert forall k :: k in keys ==> k in d.mapSend by {
          forall k | k in keys ensures k in d.mapSend { assert k in (set j | j in keys); }
        }
        Tick(d, keys, now, closing)
      case DoDestroy => Destroyed(d)
  }

  function NewDesk(lastNo: nat, timeout: nat): Desk
    requires lastNo < U32
  {
    Desk([], map[], [], lastNo, timeout, true)
  }

  function Run(d: Desk, ops: seq<Op>): (u: Desk)
    requires MapsToConns(d)
    ensures MapsToConns(u)
  {
    if ops == [] then d
    else Next(Run(d, ops[..|ops| - 1]), ops[|ops| - 1])
  }
}
