/** How the three roles fit together: the server's answer to a connector's
    Register is what the connector waits for and what makes the listener
    punch, and the listener's answer to the connector's Punch is what
    completes the connector's punch. */
module EndToEnd {
  import opened Wire
  import opened Transport
  import opened ClientFrames
  import opened Server
  import opened ListenerLogic
  import opened ConnectorLogic

  /** A connector's Register, with the 32-byte session token, for an address
      a listener registered: the server sends the connector a ConnectTo that
      its wait accepts as the listener's endpoint (copying the token to the
      token buffer), and sends the listener a ConnectTo that makes it punch
      the connector's observed endpoint with the same token. */
  lemma {:induction false} RendezvousRelay(reg: Registry, target: IPv4, token: seq<byte>, connector: EndPoint, time: int,
                                           server: EndPoint, servers: seq<EndPoint>, tokenBufferSize: nat, arrival: int)
    requires |token| == SESSION_TOKEN_LENGTH && tokenBufferSize >= SESSION_TOKEN_LENGTH && server in servers
    requires target in reg && reg[target].isListener
    ensures var r := ServerStep(reg, Datagram(RegisterFrame(Some(target), token), connector, time));
      var listener := reg[target].endPoint;
      && r.thrown.None? && |r.replies| == 2
      && r.replies[0].to == connector && r.replies[1].to == listener
      && |r.replies[0].frame| == BUFFER_SIZE && |r.replies[1].frame| == BUFFER_SIZE
      && ConnectToVerdict(Datagram(r.replies[0].frame, server, arrival), servers, token, tokenBufferSize) == Accepted(listener)
      && ConnectToCopy(Datagram(r.replies[0].frame, server, arrival), servers, tokenBufferSize) == token
      && ParseListenerFrame(r.replies[1].frame, server, servers, tokenBufferSize) == Burst(connector, token)
  {
    var frame := RegisterFrame(Some(target), token);
    var ev := Datagram(frame, connector, time);
    ConnectorRegisterRoundTrip(target, token);
    assert FrameOf(ev) == frame;
    assert token[..Min(|token|, MAX_TOKEN_LENGTH)] == token;
    RelaysToBoth(reg, ev);
    var r := ServerStep(reg, ev);
    var answer := Datagram(r.replies[0].frame, server, arrival);
    ConnectToVerdictMeaning(answer, servers, token, tokenBufferSize);
    assert r.replies[0].frame[8..8 + SESSION_TOKEN_LENGTH] == token;
  }

  /** A listener's Punch, as its ConnectTo handler writes it, reaching the
      connector from the peer's address: punched back once at the port it
      came from when that port is outside the predicted window, ignored
      otherwise. */
  lemma {:induction false} ListenerPunchSeenByConnector(token: seq<byte>, peer: EndPoint, from: EndPoint, predictions: int,
                                                        tokenBuffer: seq<byte>, arrival: int)
    requires |token| == SESSION_TOKEN_LENGTH && from.address == peer.address
    ensures PunchReplyVerdict(Datagram(PunchFrame(token), from, arrival), peer, predictions, token, tokenBuffer)
      == if PortPinged(peer.port, predictions, from.port) then Quiet else Repunch(EndPoint(peer.address, from.port))
  {
    var ev := Datagram(PunchFrame(token), from, arrival);
    PunchRoundTrip(token, Zeros(BUFFER_SIZE - 2 - |token|));
    assert FrameOf(ev) == PunchFrame(token);
    RepunchOutsideWindow(ev, peer, predictions, token, tokenBuffer);
  }

  /** The connector's Punch reaching the listener is answered, and the
      answer, arriving from the peer's address at a connector whose token
      buffer starts with the session token, completes the punch at the
      endpoint it came from. */
  lemma {:induction false} EchoCompletesPunch(token: seq<byte>, rest: seq<byte>, connector: EndPoint, servers: seq<EndPoint>,
                                              tokenBufferSize: nat, peer: EndPoint, from: EndPoint, predictions: int,
                                              tokenBuffer: seq<byte>, arrival: int)
    requires |token| == SESSION_TOKEN_LENGTH && |rest| == BUFFER_SIZE - 2 - |token|
    requires |tokenBuffer| >= |token| && tokenBuffer[..|token|] == token
    requires from.address == peer.address
    ensures var punch := PunchHeader(token) + rest;
      && ParseListenerFrame(punch, connector, servers, tokenBufferSize) == Echo
      && PunchReplyVerdict(Datagram(EchoFrame(punch), from, arrival), peer, predictions, token, tokenBuffer) == Succeeded(from)
  {
    var punch := PunchHeader(token) + rest;
    PunchRoundTrip(token, rest);
    var ev := Datagram(EchoFrame(punch), from, arrival);
    assert FrameOf(ev) == EchoFrame(punch);
    assert EchoFrame(punch)[2..2 + |token|] == punch[2..2 + |token|];
    SuccessReturnsObserved(ev, peer, predictions, token, tokenBuffer);
  }

  /** The server never acknowledges a Register: no frame it sends, received
      by a listener from whichever endpoint, changes the listener's
      registration statuses, so a status once waiting stays waiting. */
  lemma {:induction false} ServerNeverAcknowledges(reg: Registry, ev: Event, p: Packet, ctx: ListenerContext,
                                                   statuses: seq<ListenerResponseStatus>, tokenBuffer: seq<byte>,
                                                   from: EndPoint, time: int)
    requires p in ServerStep(reg, ev).replies
    requires Tracks(statuses, ctx.config.servers) && |tokenBuffer| == ctx.config.tokenBufferSize
    ensures HandleListenerEvent(ctx, statuses, tokenBuffer, Datagram(p.frame, from, time)).statuses == statuses
  {
    OnlyConnectToOrError(reg, ev);
    assert p.frame[0] != REGISTERED;
  }
}
