/** The rendezvous server (PuncherServer). Each received datagram is one
    step: a 64-byte Register frame upserts the listener registry, keyed by
    the sender's observed address, when its listener bit is set, and, when
    its connector bit is set, is answered with a pair of ConnectTo frames or
    a single Error frame. Everything else is dropped. */
module Server {
  import opened Wire
  import opened Transport

  /** A registry record (the Client class). */
  datatype Client = Client(endPoint: EndPoint, isConnector: bool, isListener: bool, lastRegisterTime: int)

  /** The listener registry, keyed by public address. */
  type Registry = map<IPv4, Client>

  /** The registry after one step, the frames the step sent in order, and
      the exception that escaped it, if any. */
  datatype StepResult = StepResult(registry: Registry, replies: seq<Packet>, thrown: Option<Exception>)

  /** The declared token length the server's guard lets through. */
  const MAX_ADMITTED_TOKEN: nat := BUFFER_SIZE - 6

  ghost predicate OnlyListeners(reg: Registry)
  {
    forall a | a in reg :: reg[a].isListener
  }

  /** The listener branch: the record for the sender's address becomes the
      sender's observed endpoint, the decoded flags and the current time. */
  function Upsert(reg: Registry, sender: EndPoint, flags: Flags, now: int): Registry
  {
    if flags.isListener then reg[sender.address := Client(sender, flags.isConnector, true, now)] else reg
  }

  /** The connector branch on a 64-byte Register frame from `sender`. */
  function Route(reg: Registry, frame: seq<byte>, sender: EndPoint): StepResult
    requires |frame| == BUFFER_SIZE
  {
    var target := RegisterTarget(frame);
    var size := RegisterTokenSize(frame);
    if size > MAX_ADMITTED_TOKEN then
      StepResult(reg, [], None)
    else if 7 + size > BUFFER_SIZE then
      // the copy of the token out of the frame runs past its end
      StepResult(reg, [], Some(ArgumentException))
    else if target in reg && reg[target].isListener then
      if 8 + size > BUFFER_SIZE then
        // the copy of the token into the ConnectTo frame runs past its end
        StepResult(reg, [], Some(ArgumentException))
      else
        var token := RegisterToken(frame);
        var padding := frame[8 + size..];
        var listener := reg[target].endPoint;
        StepResult(reg, [Packet(ConnectToFrame(listener, token, padding), sender),
                         Packet(ConnectToFrame(sender, token, padding), listener)], None)
    else
      StepResult(reg, [Packet(ErrorFrame(CLIENT_NOT_FOUND), sender)], None)
  }

  /** One ProcessMessage call on the delivered event. */
  function ServerStep(reg: Registry, ev: Event): StepResult
  {
    if Oversized(ev) then
      // the receive itself throws
      StepResult(reg, [], Some(SocketException))
    else if !ev.Datagram? then
      // the receive returned no sender endpoint, which is dereferenced
      StepResult(reg, [], Some(NullReferenceException))
    else if !IsFrame(ev) || FrameOf(ev)[0] != REGISTER then
      StepResult(reg, [], None)
    else
      var frame := FrameOf(ev);
      var flags := DecodeFlags(frame[1]);
      var reg' := Upsert(reg, ev.from, flags, ev.time);
      if flags.isConnector then Route(reg', frame, ev.from) else StepResult(reg', [], None)
  }

  /** The server loop over a sequence of events, one ProcessMessage call
      after another; it stops at the first exception, which ends Start. */
  function ServerRun(reg: Registry, evs: seq<Event>): StepResult
    decreases |evs|
  {
    if evs == [] then StepResult(reg, [], None)
    else
      var before := ServerRun(reg, evs[..|evs| - 1]);
      if before.thrown.Some? then before
      else
        var step := ServerStep(before.registry, evs[|evs| - 1]);
        StepResult(step.registry, before.replies + step.replies, step.thrown)
  }

  // ----- Properties of one step -----

  /** A datagram shorter than 64 bytes, or a 64-byte frame that is not a
      Register, changes nothing and is not answered. */
  lemma DropsNonRegister(reg: Registry, ev: Event)
    requires ev.Datagram? && !Oversized(ev) && (!IsFrame(ev) || FrameOf(ev)[0] != REGISTER)
    ensures ServerStep(reg, ev) == StepResult(reg, [], None)
  {
  }

  /** With both flag bits set, both branches run: the sender is registered
      and the request is answered. */
  lemma BothFlagsRunBothBranches(reg: Registry, ev: Event)
    requires IsFrame(ev) && FrameOf(ev)[0] == REGISTER && FrameOf(ev)[1] as int % 4 == 3
    requires RegisterTokenSize(FrameOf(ev)) <= BUFFER_SIZE - 8
    ensures var r := ServerStep(reg, ev);
      && ev.from.address in r.registry
      && r.registry[ev.from.address].endPoint == ev.from
      && |r.replies| >= 1 && r.thrown == None
  {
    FlagBits(FrameOf(ev)[1]);
  }

  /** After a Register with the listener bit, the sender's address maps to
      its observed endpoint, its flags and the event time; every other
      address keeps its record. */
  lemma ListenerUpsert(reg: Registry, ev: Event)
    requires IsFrame(ev) && FrameOf(ev)[0] == REGISTER && DecodeFlags(FrameOf(ev)[1]).isListener
    ensures var r := ServerStep(reg, ev);
      && r.registry.Keys == reg.Keys + {ev.from.address}
      && r.registry[ev.from.address]
         == Client(ev.from, DecodeFlags(FrameOf(ev)[1]).isConnector, true, ev.time)
      && forall a | a in reg && a != ev.from.address :: r.registry[a] == reg[a]
  {
  }

  /** Two listeners behind one public address: the later one overwrites the
      earlier one's record. */
  lemma SameAddressOverwrites(reg: Registry, first: Event, second: Event)
    requires IsFrame(first) && FrameOf(first)[0] == REGISTER && DecodeFlags(FrameOf(first)[1]) == Flags(false, true)
    requires IsFrame(second) && FrameOf(second)[0] == REGISTER && DecodeFlags(FrameOf(second)[1]) == Flags(false, true)
    requires first.from.address == second.from.address
    ensures var r := ServerStep(ServerStep(reg, first).registry, second);
      r.registry[second.from.address] == Client(second.from, false, true, second.time)
  {
  }

  /** Every record has IsListener set, and stays so; a step without the
      listener bit neither adds nor removes a record. */
  lemma StepKeepsOnlyListeners(reg: Registry, ev: Event)
    requires OnlyListeners(reg)
    ensures OnlyListeners(ServerStep(reg, ev).registry)
    ensures reg.Keys <= ServerStep(reg, ev).registry.Keys
    ensures !(IsFrame(ev) && FrameOf(ev)[0] == REGISTER && DecodeFlags(FrameOf(ev)[1]).isListener)
            ==> ServerStep(reg, ev).registry == reg
  {
  }

  /** A connector request declaring more than 58 token bytes is dropped
      without a reply; the listener upsert of the same frame persists. */
  lemma OversizedTokenDropped(reg: Registry, ev: Event)
    requires IsFrame(ev) && FrameOf(ev)[0] == REGISTER && DecodeFlags(FrameOf(ev)[1]).isConnector
    requires RegisterTokenSize(FrameOf(ev)) > MAX_ADMITTED_TOKEN
    ensures ServerStep(reg, ev)
            == StepResult(Upsert(reg, ev.from, DecodeFlags(FrameOf(ev)[1]), ev.time), [], None)
  {
  }

  /** The guard admits 57 and 58 although the copies need less: a declared
      length of 58 always throws, and 57 throws, sending nothing, exactly
      when the target is a registered listener; otherwise 57 is answered with
      the ClientNotFound Error frame. */
  lemma AdmittedTokenOverruns(reg: Registry, ev: Event)
    requires IsFrame(ev) && FrameOf(ev)[0] == REGISTER && DecodeFlags(FrameOf(ev)[1]).isConnector
    requires RegisterTokenSize(FrameOf(ev)) in {57, 58}
    ensures var r := ServerStep(reg, ev);
      var reg' := Upsert(reg, ev.from, DecodeFlags(FrameOf(ev)[1]), ev.time);
      var target := RegisterTarget(FrameOf(ev));
      && (RegisterTokenSize(FrameOf(ev)) == 58 ==> r == StepResult(reg', [], Some(ArgumentException)))
      && (RegisterTokenSize(FrameOf(ev)) == 57 ==>
            && (r.thrown == Some(ArgumentException) <==> target in reg' && reg'[target].isListener)
            && (r.thrown.Some? ==> r.replies == [] && r.registry == reg')
            && (!(target in reg' && reg'[target].isListener) ==>
                  r == StepResult(reg', [Packet(ErrorFrame(CLIENT_NOT_FOUND), ev.from)], None)))
  {
  }

  /** A request for a registered listener is answered by exactly two
      ConnectTo frames: first to the connector, carrying the listener's
      endpoint, then to the listener, carrying the connector's endpoint,
      both with the token the connector declared. */
  lemma {:induction false} RelaysToBoth(reg: Registry, ev: Event)
    requires IsFrame(ev) && FrameOf(ev)[0] == REGISTER && DecodeFlags(FrameOf(ev)[1]).isConnector
    requires RegisterTokenSize(FrameOf(ev)) <= BUFFER_SIZE - 8
    requires var reg' := Upsert(reg, ev.from, DecodeFlags(FrameOf(ev)[1]), ev.time);
      RegisterTarget(FrameOf(ev)) in reg' && reg'[RegisterTarget(FrameOf(ev))].isListener
    ensures var r := ServerStep(reg, ev);
      var reg' := Upsert(reg, ev.from, DecodeFlags(FrameOf(ev)[1]), ev.time);
      var listener := reg'[RegisterTarget(FrameOf(ev))].endPoint;
      var token := RegisterToken(FrameOf(ev));
      && r.thrown == None && |r.replies| == 2
      && r.replies[0].to == ev.from && r.replies[1].to == listener
      && r.replies[0].frame[0] == CONNECT_TO && r.replies[1].frame[0] == CONNECT_TO
      && ConnectToPeer(r.replies[0].frame) == listener && ConnectToToken(r.replies[0].frame) == token
      && ConnectToPeer(r.replies[1].frame) == ev.from && ConnectToToken(r.replies[1].frame) == token
  {
    var frame := FrameOf(ev);
    var size := RegisterTokenSize(frame);
    var reg' := Upsert(reg, ev.from, DecodeFlags(frame[1]), ev.time);
    var listener := reg'[RegisterTarget(frame)].endPoint;
    var token := RegisterToken(frame);
    var padding := frame[8 + size..];
    ConnectToRoundTrip(listener, token, padding);
    ConnectToRoundTrip(ev.from, token, padding);
  }

  /** A request for an address with no listener is answered by one Error
      frame, ClientNotFound, to the connector, all other bytes zero. */
  lemma {:induction false} NotFoundAnswersError(reg: Registry, ev: Event)
    requires IsFrame(ev) && FrameOf(ev)[0] == REGISTER && DecodeFlags(FrameOf(ev)[1]).isConnector
    requires RegisterTokenSize(FrameOf(ev)) <= BUFFER_SIZE - 7
    requires var reg' := Upsert(reg, ev.from, DecodeFlags(FrameOf(ev)[1]), ev.time);
      !(RegisterTarget(FrameOf(ev)) in reg' && reg'[RegisterTarget(FrameOf(ev))].isListener)
    ensures var r := ServerStep(reg, ev);
      && r.thrown == None && |r.replies| == 1 && r.replies[0].to == ev.from
      && |r.replies[0].frame| == BUFFER_SIZE
      && r.replies[0].frame[0] == ERROR && r.replies[0].frame[1] == CLIENT_NOT_FOUND
      && forall i | 2 <= i < BUFFER_SIZE :: r.replies[0].frame[i] == 0
  {
    assert ServerStep(reg, ev).replies == [Packet(ErrorFrame(CLIENT_NOT_FOUND), ev.from)];
  }

  /** The server only ever sends ConnectTo or Error frames, and a Register
      without the connector bit is never answered (there is no Registered
      reply). */
  lemma {:induction false} OnlyConnectToOrError(reg: Registry, ev: Event)
    ensures forall p | p in ServerStep(reg, ev).replies ::
      |p.frame| == BUFFER_SIZE && p.frame[0] in {CONNECT_TO, ERROR}
    ensures !(IsFrame(ev) && FrameOf(ev)[0] == REGISTER && DecodeFlags(FrameOf(ev)[1]).isConnector)
            ==> ServerStep(reg, ev).replies == []
  {
    if IsFrame(ev) && FrameOf(ev)[0] == REGISTER && DecodeFlags(FrameOf(ev)[1]).isConnector {
      var frame := FrameOf(ev);
      var size := RegisterTokenSize(frame);
      var reg' := Upsert(reg, ev.from, DecodeFlags(frame[1]), ev.time);
      var target := RegisterTarget(frame);
      if size <= BUFFER_SIZE - 8 && target in reg' && reg'[target].isListener {
        var padding := frame[8 + size..];
        ConnectToRoundTrip(reg'[target].endPoint, RegisterToken(frame), padding);
        ConnectToRoundTrip(ev.from, RegisterToken(frame), padding);
      }
    }
  }

  // ----- Properties of the loop -----

  /** Over any run, records are never removed and every record stays a
      listener record. */
  lemma {:induction false} RunKeepsOnlyListeners(reg: Registry, evs: seq<Event>)
    requires OnlyListeners(reg)
    ensures OnlyListeners(ServerRun(reg, evs).registry)
    ensures reg.Keys <= ServerRun(reg, evs).registry.Keys
    decreases |evs|
  {
    if evs != [] {
      var init := evs[..|evs| - 1];
      RunKeepsOnlyListeners(reg, init);
      StepKeepsOnlyListeners(ServerRun(reg, init).registry, evs[|evs| - 1]);
    }
  }

  /** Once a step throws, the run stops there: later events are never
      received, so nothing more is registered or sent. */
  lemma {:induction false} RunStopsAtThrow(reg: Registry, evs: seq<Event>, n: nat)
    requires n <= |evs| && ServerRun(reg, evs[..n]).thrown.Some?
    ensures ServerRun(reg, evs) == ServerRun(reg, evs[..n])
    decreases |evs|
  {
    if n < |evs| {
      var init := evs[..|evs| - 1];
      assert init[..n] == evs[..n];
      RunStopsAtThrow(reg, init, n);
    } else {
      assert evs[..n] == evs;
    }
  }

  /** A datagram longer than 64 bytes makes the receive throw, which ends
      the server loop: the registry and the replies stay as they were
      before it. */
  lemma {:induction false} OversizedEndsServer(reg: Registry, evs: seq<Event>, i: nat)
    requires i < |evs| && Oversized(evs[i])
    requires ServerRun(reg, evs[..i]).thrown.None?
    ensures var r := ServerRun(reg, evs);
      var before := ServerRun(reg, evs[..i]);
      && r.thrown == Some(SocketException)
      && r.registry == before.registry
      && r.replies == before.replies
  {
    var upto := evs[..i + 1];
    assert upto[..|upto| - 1] == evs[..i];
    assert ServerRun(reg, upto).thrown == Some(SocketException);
    RunStopsAtThrow(reg, evs, i + 1);
  }

  class PuncherServer {
    const buffer: array<byte>
    const tokenBuffer: array<byte>
    const ipBuffer: array<byte>
    /** The listener registry (_listenerClients); records are never removed. */
    var listenerClients: Registry
    const transport: UdpTransport

    ghost predicate Valid()
      reads this
    {
      && buffer.Length == BUFFER_SIZE && tokenBuffer.Length == BUFFER_SIZE && ipBuffer.Length == 4
      && buffer != tokenBuffer && buffer != ipBuffer && tokenBuffer != ipBuffer
    }

    constructor (t: UdpTransport)
      ensures Valid() && transport == t && listenerClients == map[]
      ensures fresh(buffer) && fresh(tokenBuffer) && fresh(ipBuffer)
    {
      buffer := new byte[BUFFER_SIZE](_ => 0);
      tokenBuffer := new byte[BUFFER_SIZE](_ => 0);
      ipBuffer := new byte[4](_ => 0);
      listenerClients := map[];
      transport := t;
    }

    /** Writes bytes 1-6 of a ConnectTo frame: the peer's address and port. */
    method WritePeer(peer: EndPoint)
      requires Valid()
      modifies buffer
      ensures buffer[..] == Overwrite(old(buffer[..]), 1, peer.address.Bytes() + [LowByte(peer.port), HighByte(peer.port)])
    {
      var ok := BlockCopy(peer.address.Bytes(), 0, buffer, 1, 4);
      buffer[5] := LowByte(peer.port);
      buffer[6] := HighByte(peer.port);
      assert buffer[..] == Overwrite(old(buffer[..]), 1, peer.address.Bytes() + [LowByte(peer.port), HighByte(peer.port)]);
    }

    /** The toward-the-connector ConnectTo frame, built in place on the
        received Register frame. */
    method WriteConnectTo(listener: EndPoint, tokenSize: byte)
      requires Valid() && 8 + tokenSize as int <= BUFFER_SIZE
      modifies buffer
      ensures buffer[..] == ConnectToFrame(listener, tokenBuffer[..tokenSize], old(buffer[..])[8 + tokenSize as int..])
    {
      ghost var frame := buffer[..];
      buffer[0] := CONNECT_TO;
      WritePeer(listener);
      buffer[7] := tokenSize;
      var ok := BlockCopy(tokenBuffer[..], 0, buffer, 8, tokenSize as int);
      ghost var want := ConnectToFrame(listener, tokenBuffer[..tokenSize], frame[8 + tokenSize as int..]);
      assert forall k | 0 <= k < BUFFER_SIZE :: buffer[..][k] == want[k];
    }

    /** One iteration of the server loop: receive, then handle. */
    method ProcessMessage() returns (thrown: Option<Exception>)
      requires Valid()
      modifies this`listenerClients, buffer, tokenBuffer, ipBuffer
      modifies transport`inbox, transport`now, transport`received, transport`sent
      ensures var ev := NextEvent(old(transport.inbox), old(transport.now));
        var r := ServerStep(old(listenerClients), ev);
        && listenerClients == r.registry
        && transport.sent == old(transport.sent) + r.replies
        && thrown == r.thrown
        && transport.inbox == RestOf(old(transport.inbox))
        && transport.received == old(transport.received) + [ev]
    {
      ghost var ev := NextEvent(transport.inbox, transport.now);
      var size, sender, _, failure := transport.ReceiveFrom(buffer);
      if failure.Some? {
        return failure;
      }
      if sender.None? {
        return Some(NullReferenceException);
      }
      var senderEndpoint := sender.value;
      var senderAddress := senderEndpoint.address;
      if size != buffer.Length {
        return None;
      }
      assert buffer[..] == FrameOf(ev);
      if buffer[0] != REGISTER {
        return None;
      }
      ghost var frame := buffer[..];
      var registerFlags := buffer[1];
      var isConnector := registerFlags as int % 2 == 1;
      var isListener := (registerFlags as int / 2) % 2 == 1;
      if isListener {
        if senderAddress in listenerClients {
          var client := listenerClients[senderAddress];
          listenerClients := listenerClients[senderAddress := client.(endPoint := senderEndpoint,
            isConnector := isConnector, isListener := isListener, lastRegisterTime := transport.now)];
        } else {
          listenerClients := listenerClients[senderAddress :=
            Client(senderEndpoint, isConnector, isListener, transport.now)];
        }
      }
      assert listenerClients == Upsert(old(listenerClients), senderEndpoint, DecodeFlags(frame[1]), ev.time);
      if isConnector {
        thrown := HandleConnector(senderEndpoint);
      } else {
        thrown := None;
      }
    }

    /** The connector branch, on the received Register frame still in the
        buffer: look the target up and answer. */
    method HandleConnector(senderEndpoint: EndPoint) returns (thrown: Option<Exception>)
      requires Valid()
      modifies buffer, tokenBuffer, ipBuffer, transport`sent
      ensures var r := Route(listenerClients, old(buffer[..]), senderEndpoint);
        transport.sent == old(transport.sent) + r.replies && thrown == r.thrown
    {
      ghost var frame := buffer[..];
      var ok := BlockCopy(buffer[..], 2, ipBuffer, 0, 4);
      assert ipBuffer[..] == frame[2..6];
      var listenerAddress := IPv4(ipBuffer[0], ipBuffer[1], ipBuffer[2], ipBuffer[3]);
      assert listenerAddress == RegisterTarget(frame);
      var tokenSize := buffer[6];
      if tokenSize as int > buffer.Length - 6 {
        return None;
      }
      ok := BlockCopy(buffer[..], 7, tokenBuffer, 0, tokenSize as int);
      if !ok {
        return Some(ArgumentException);
      }
      assert tokenBuffer[..tokenSize] == RegisterToken(frame);
      if listenerAddress in listenerClients && listenerClients[listenerAddress].isListener {
        var listenerClient := listenerClients[listenerAddress];
        if 8 + tokenSize as int > buffer.Length {
          // Buffer.BlockCopy of the token into the ConnectTo frame throws
          return Some(ArgumentException);
        }
        Relay(listenerClient.endPoint, senderEndpoint, tokenSize);
        thrown := None;
      } else {
        Clear(buffer, 2, buffer.Length - 2);
        buffer[0] := ERROR;
        buffer[1] := CLIENT_NOT_FOUND;
        assert buffer[..] == ErrorFrame(CLIENT_NOT_FOUND);
        var _ := transport.SendTo(buffer, senderEndpoint);
        thrown := None;
      }
    }

    /** The two ConnectTo frames, built in place on the Register frame: the
        listener's endpoint to the connector, then the connector's endpoint
        to the listener. */
    method Relay(listener: EndPoint, connector: EndPoint, tokenSize: byte)
      requires Valid() && 8 + tokenSize as int <= BUFFER_SIZE
      modifies buffer, transport`sent
      ensures var token := tokenBuffer[..tokenSize];
        var padding := old(buffer[..])[8 + tokenSize as int..];
        transport.sent == old(transport.sent) + [Packet(ConnectToFrame(listener, token, padding), connector),
                                                 Packet(ConnectToFrame(connector, token, padding), listener)]
    {
      ghost var frame := buffer[..];
      WriteConnectTo(listener, tokenSize);
      var _ := transport.SendTo(buffer, connector);
      WritePeer(connector);
      ghost var second := ConnectToFrame(connector, tokenBuffer[..tokenSize], frame[8 + tokenSize as int..]);
      assert forall k | 0 <= k < BUFFER_SIZE :: buffer[..][k] == second[k];
      assert buffer[..] == second;
      var _ := transport.SendTo(buffer, listener);
    }

    /** Bind, then process events until one throws; the loop of the source
        never ends, the model's ends when the supplied events do. */
    method Start(endpoint: EndPoint) returns (thrown: Option<Exception>)
      requires Valid()
      modifies this`listenerClients, buffer, tokenBuffer, ipBuffer
      modifies transport`inbox, transport`now, transport`received, transport`sent, transport`boundTo
      ensures transport.boundTo == Some(endpoint)
      ensures thrown.None? ==> transport.inbox == []
      ensures |old(transport.received)| <= |transport.received|
      ensures var consumed := transport.received[|old(transport.received)|..];
        && old(transport.inbox) == consumed + transport.inbox
        && |old(transport.sent)| <= |transport.sent|
        && ServerRun(old(listenerClients), consumed)
           == StepResult(listenerClients, transport.sent[|old(transport.sent)|..], thrown)
    {
      transport.Bind(endpoint);
      ghost var reg0 := listenerClients;
      ghost var consumed: seq<Event> := [];
      ghost var replies: seq<Packet> := [];
      while |transport.inbox| > 0
        invariant Valid()
        invariant transport.boundTo == Some(endpoint)
        invariant transport.received == old(transport.received) + consumed
        invariant transport.sent == old(transport.sent) + replies
        invariant old(transport.inbox) == consumed + transport.inbox
        invariant ServerRun(reg0, consumed) == StepResult(listenerClients, replies, None)
        decreases |transport.inbox|
      {
        ghost var ev := transport.inbox[0];
        ghost var step := ServerStep(listenerClients, ev);
        assert (consumed + [ev])[..|consumed|] == consumed;
        assert consumed + transport.inbox == (consumed + [ev]) + transport.inbox[1..];
        var t := ProcessMessage();
        assert transport.received == old(transport.received) + (consumed + [ev]);
        assert transport.sent == old(transport.sent) + (replies + step.replies);
        consumed, replies := consumed + [ev], replies + step.replies;
        if t.Some? {
          assert transport.received[|old(transport.received)|..] == consumed;
          assert transport.sent[|old(transport.sent)|..] == replies;
          return t;
        }
      }
      assert transport.received[|old(transport.received)|..] == consumed;
      assert transport.sent[|old(transport.sent)|..] == replies;
      return None;
    }
  }
}
