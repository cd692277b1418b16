/** The datagram transport both roles talk through (the IUDPTransport
    interface), modelled as an environment: a supplied sequence of receive
    events, a recorded trace of every SendTo call, a clock that each receive
    advances to the event's timestamp, and a fixed set of destinations for
    which SendTo reports failure. Also the exceptions the core can raise. */
module Transport {
  import opened Wire

  /** The exceptions the core throws, by .NET type. */
  datatype Exception =
    | ArgumentException            // Buffer.BlockCopy out of range; punching a non-IPv4 address
    | ArgumentOutOfRangeException  // an IPEndPoint port above 65535
    | IndexOutOfRangeException     // an array index past the end
    | NullReferenceException       // dereferencing a missing sender endpoint
    | SocketSendException          // a SendTo that reported fewer bytes than the frame
    | ServerNotReachableException  // no register response within the timeout
    | SocketException              // a receive error other than a timeout, rethrown by the transport

  /** How a call ends: it returns a value or it throws. */
  datatype Outcome<+T> = Normal(value: T) | Threw(exception: Exception)

  /** What one ReceiveFrom call returns. `Stop` stands for another thread
      calling Close or Dispose: the running flag is then false and the
      receive returns nothing. */
  datatype Event =
    | Datagram(data: seq<byte>, from: EndPoint, time: int)
    | Timeout(time: int)
    | Stop(time: int)

  /** A received datagram that exactly fills the 64-byte frame buffer. */
  predicate IsFrame(ev: Event)
  {
    ev.Datagram? && |ev.data| == BUFFER_SIZE
  }

  /** A datagram larger than the 64-byte buffer: the socket reports it as
      a SocketException (message too long), which is not a timeout, so the
      transport rethrows it. */
  predicate Oversized(ev: Event)
  {
    ev.Datagram? && |ev.data| > BUFFER_SIZE
  }

  /** The frame such an event leaves in the 64-byte buffer. */
  function FrameOf(ev: Event): (f: seq<byte>)
    requires IsFrame(ev)
    ensures |f| == BUFFER_SIZE
  {
    ev.data
  }

  /** The event a receive delivers: the next one supplied, or once the
      supplied events run out, a stop at the current time. */
  function NextEvent(inbox: seq<Event>, now: int): Event
  {
    if inbox == [] then Stop(now) else inbox[0]
  }

  function RestOf(inbox: seq<Event>): seq<Event>
  {
    if inbox == [] then [] else inbox[1..]
  }

  /** The buffer after a receive of `ev`: a datagram's first bytes, as many
      as fit, overwrite its front; nothing else changes it. */
  function AfterReceive(buffer: seq<byte>, ev: Event): (b: seq<byte>)
    ensures |b| == |buffer|
    ensures IsFrame(ev) && |buffer| == BUFFER_SIZE ==> b == FrameOf(ev)
    ensures ev.Datagram? && |ev.data| < |buffer| ==>
      b[..|ev.data|] == ev.data && b[|ev.data|..] == buffer[|ev.data|..]
    ensures !ev.Datagram? ==> b == buffer
  {
    if ev.Datagram? then Overwrite(buffer, 0, ev.data[..Min(|ev.data|, |buffer|)]) else buffer
  }

  /** A datagram handed to SendTo, and its destination. */
  datatype Packet = Packet(frame: seq<byte>, to: EndPoint)

  class UdpTransport {
    /** Receive events not yet delivered, in order. */
    var inbox: seq<Event>
    /** Every SendTo call made so far, in order. */
    var sent: seq<Packet>
    /** Every event delivered so far, in order. */
    ghost var received: seq<Event>
    /** DateTime.Now, in milliseconds: the timestamp of the latest event. */
    var now: int
    /** The endpoint of the last Bind call. */
    var boundTo: Option<EndPoint>
    /** Destinations for which SendTo reports that nothing was sent. */
    const unreachable: set<EndPoint>

    constructor (events: seq<Event>, start: int, failing: set<EndPoint>)
      ensures inbox == events && sent == [] && received == [] && now == start
      ensures boundTo == None && unreachable == failing
    {
      inbox := events;
      sent := [];
      received := [];
      now := start;
      boundTo := None;
      unreachable := failing;
    }

    method Bind(endpoint: EndPoint)
      modifies this`boundTo
      ensures boundTo == Some(endpoint)
    {
      boundTo := Some(endpoint);
    }

    /** SendTo(buffer, 0, buffer.Length, timeout, to): the byte count sent,
        or -1 when the send fails. */
    method SendTo(buffer: array<byte>, to: EndPoint) returns (size: int)
      modifies this`sent
      ensures sent == old(sent) + [Packet(buffer[..], to)]
      ensures size == if to in unreachable then -1 else buffer.Length
    {
      sent := sent + [Packet(buffer[..], to)];
      size := if to in unreachable then -1 else buffer.Length;
    }

    /** ReceiveFrom(buffer, 0, buffer.Length, timeout, out from): writes the
        datagram's first bytes into the buffer and returns their count, or -1
        and no endpoint when nothing was received. `stop` reports a
        concurrent Close; `thrown` the SocketException a datagram larger than
        the buffer raises. */
    method ReceiveFrom(buffer: array<byte>) returns (size: int, from: Option<EndPoint>, stop: bool, thrown: Option<Exception>)
      modifies this`inbox, this`now, this`received, buffer
      ensures var ev := NextEvent(old(inbox), old(now));
        && inbox == RestOf(old(inbox))
        && received == old(received) + [ev]
        && now == ev.time
        && stop == ev.Stop?
        && buffer[..] == AfterReceive(old(buffer[..]), ev)
        && thrown == (if ev.Datagram? && |ev.data| > buffer.Length then Some(SocketException) else None)
        && (ev.Datagram? ==> size == Min(|ev.data|, buffer.Length) && from == Some(ev.from))
        && (!ev.Datagram? ==> size == -1 && from == None)
    {
      var ev := NextEvent(inbox, now);
      inbox := RestOf(inbox);
      received := received + [ev];
      now := ev.time;
      stop := ev.Stop?;
      thrown := if ev.Datagram? && |ev.data| > buffer.Length then Some(SocketException) else None;
      if ev.Datagram? {
        size := Min(|ev.data|, buffer.Length);
        from := Some(ev.from);
        var ok := BlockCopy(ev.data, 0, buffer, 0, size);
      } else {
        size := -1;
        from := None;
      }
    }
  }
}
