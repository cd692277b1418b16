/** The connector role as functions of the received events: how a reply to
    its Register is judged (TryWaitForConnectorRegisterResponse), how a
    frame from the peer is judged while punching (TryCompleteConnectorPunch),
    and both deadline-bounded loops. */
module ConnectorLogic {
  import opened Wire
  import opened Transport
  import opened ClientFrames

  // ----- Waiting for the server's answer -----

  datatype WaitVerdict =
    | Refused                 // the server's Error: return false at once
    | Accepted(peer: EndPoint) // a ConnectTo carrying our token: return the peer
    | Skipped                 // anything else: keep waiting
    | Failed(e: Exception)    // the receive, the token copy or the comparison throws

  predicate FromServer(ev: Event, servers: seq<EndPoint>)
  {
    IsFrame(ev) && ev.from in servers
  }

  /** How the wait loop judges one received event. The comparison runs over
      the declared token length against the session token. */
  function ConnectToVerdict(ev: Event, servers: seq<EndPoint>, token: seq<byte>, tokenBufferSize: nat): WaitVerdict
  {
    if Oversized(ev) then Failed(SocketException)
    else if !FromServer(ev, servers) then Skipped
    else
      var frame := FrameOf(ev);
      if frame[0] == ERROR then Refused
      else if frame[0] != CONNECT_TO then Skipped
      else
        var size := ConnectToTokenSize(frame);
        if size > BUFFER_SIZE - 6 then Skipped
        else if 8 + size > BUFFER_SIZE || size > tokenBufferSize then Failed(ArgumentException)
        else
          match Compare(ConnectToToken(frame), token, size)
          case Normal(same) => if same then Accepted(ConnectToPeer(frame)) else Skipped
          case Threw(e) => Failed(e)
  }

  /** The bytes the wait loop copies to the front of the token buffer for
      this event, whatever the comparison then finds. */
  function ConnectToCopy(ev: Event, servers: seq<EndPoint>, tokenBufferSize: nat): (c: seq<byte>)
    ensures |c| <= tokenBufferSize
  {
    if !FromServer(ev, servers) then []
    else
      var frame := FrameOf(ev);
      var size := ConnectToTokenSize(frame);
      if frame[0] == CONNECT_TO && 8 + size <= BUFFER_SIZE && size <= tokenBufferSize then ConnectToToken(frame)
      else []
  }

  /** Only frames from a server endpoint are considered, and a server's
      Error refuses at once; a datagram too long for the buffer, from
      anyone, makes the receive throw. */
  lemma ServerErrorRefuses(ev: Event, servers: seq<EndPoint>, token: seq<byte>, tokenBufferSize: nat)
    ensures Oversized(ev) ==> ConnectToVerdict(ev, servers, token, tokenBufferSize) == Failed(SocketException)
    ensures !Oversized(ev) && !FromServer(ev, servers) ==> ConnectToVerdict(ev, servers, token, tokenBufferSize) == Skipped
    ensures FromServer(ev, servers) && FrameOf(ev)[0] == ERROR ==>
      ConnectToVerdict(ev, servers, token, tokenBufferSize) == Refused
  {
  }

  /** A server's ConnectTo with declared length s, m = min(s, |token|): more
      than 58 is skipped; 57, 58 or more than the token buffer holds makes the
      copy throw; otherwise it is accepted when its first s bytes are the
      token's first s, skipped on a mismatch within the first m, and throws
      IndexOutOfRange when the session token is shorter than s. */
  lemma {:induction false} ConnectToVerdictMeaning(ev: Event, servers: seq<EndPoint>, token: seq<byte>, tokenBufferSize: nat)
    requires FromServer(ev, servers) && FrameOf(ev)[0] == CONNECT_TO
    ensures var frame := FrameOf(ev);
      var s := ConnectToTokenSize(frame);
      var v := ConnectToVerdict(ev, servers, token, tokenBufferSize);
      && (s > BUFFER_SIZE - 6 ==> v == Skipped)
      && (s <= BUFFER_SIZE - 6 && (s > BUFFER_SIZE - 8 || s > tokenBufferSize) ==> v == Failed(ArgumentException))
      && (s <= BUFFER_SIZE - 8 && s <= tokenBufferSize ==>
            var m := Min(s, |token|);
            v == if frame[8..8 + m] != token[..m] then Skipped
                 else if m == s then Accepted(ConnectToPeer(frame))
                 else Failed(IndexOutOfRangeException))
  {
    var frame := FrameOf(ev);
    var s := ConnectToTokenSize(frame);
    if s <= BUFFER_SIZE - 8 && s <= tokenBufferSize {
      var a := ConnectToToken(frame);
      CompareMeaning(a, token, s);
      var m := Min(s, |token|);
      assert a[..m] == frame[8..8 + m];
    }
  }

  /** The comparison is a prefix test: a ConnectTo declaring no token bytes
      is accepted whatever the token. */
  lemma ZeroLengthTokenAccepted(ev: Event, servers: seq<EndPoint>, token: seq<byte>, tokenBufferSize: nat)
    requires FromServer(ev, servers) && FrameOf(ev)[0] == CONNECT_TO && ConnectToTokenSize(FrameOf(ev)) == 0
    ensures ConnectToVerdict(ev, servers, token, tokenBufferSize) == Accepted(ConnectToPeer(FrameOf(ev)))
  {
    ConnectToVerdictMeaning(ev, servers, token, tokenBufferSize);
  }

  /** With the 32-byte session token, a ConnectTo declaring more than
      32 bytes whose first 32 match indexes past the token's end. */
  lemma SessionTokenOverrun(ev: Event, servers: seq<EndPoint>, token: seq<byte>, tokenBufferSize: nat)
    requires |token| == SESSION_TOKEN_LENGTH
    requires FromServer(ev, servers) && FrameOf(ev)[0] == CONNECT_TO
    requires SESSION_TOKEN_LENGTH < ConnectToTokenSize(FrameOf(ev)) <= BUFFER_SIZE - 8
    requires ConnectToTokenSize(FrameOf(ev)) <= tokenBufferSize
    requires FrameOf(ev)[8..8 + SESSION_TOKEN_LENGTH] == token
    ensures ConnectToVerdict(ev, servers, token, tokenBufferSize) == Failed(IndexOutOfRangeException)
  {
    ConnectToVerdictMeaning(ev, servers, token, tokenBufferSize);
  }

  datatype WaitContext = WaitContext(
    servers: seq<EndPoint>,
    token: seq<byte>,
    tokenBufferSize: nat,
    timeout: int,
    timeoutException: bool)

  /** Where the wait loop ended: its result (a peer, false, or an
      exception), the two buffers, the unread events, the running flag and
      the clock. */
  datatype WaitRun = WaitRun(outcome: Outcome<Option<EndPoint>>, buffer: seq<byte>, tokenBuffer: seq<byte>,
                             rest: seq<Event>, running: bool, now: int)

  /** `do { receive; judge } while (now - start < timeout && _isRunning)`,
      then throw ServerNotReachable when asked to, else return false. The
      start time is fixed by the caller and never reset. */
  function ConnectorWait(ctx: WaitContext, start: int, buffer: seq<byte>, tokenBuffer: seq<byte>,
                         inbox: seq<Event>, now: int, running: bool): (r: WaitRun)
    requires |tokenBuffer| == ctx.tokenBufferSize
    ensures |r.buffer| == |buffer| && |r.tokenBuffer| == |tokenBuffer|
    ensures |r.rest| <= |inbox| && r.rest == inbox[|inbox| - |r.rest|..]
    decreases |inbox|
  {
    var ev := NextEvent(inbox, now);
    var buffer' := AfterReceive(buffer, ev);
    var tokenBuffer' := Overwrite(tokenBuffer, 0, ConnectToCopy(ev, ctx.servers, ctx.tokenBufferSize));
    var running' := running && !ev.Stop?;
    var v := ConnectToVerdict(ev, ctx.servers, ctx.token, ctx.tokenBufferSize);
    if v.Refused? then WaitRun(Normal(None), buffer', tokenBuffer', RestOf(inbox), running', ev.time)
    else if v.Accepted? then WaitRun(Normal(Some(v.peer)), buffer', tokenBuffer', RestOf(inbox), running', ev.time)
    else if v.Failed? then WaitRun(Threw(v.e), buffer', tokenBuffer', RestOf(inbox), running', ev.time)
    else if inbox != [] && ev.time - start < ctx.timeout && running' then
      ConnectorWait(ctx, start, buffer', tokenBuffer', RestOf(inbox), ev.time, running')
    else
      var outcome := if ctx.timeoutException then Threw(ServerNotReachableException) else Normal(None);
      WaitRun(outcome, buffer', tokenBuffer', RestOf(inbox), running', ev.time)
  }

  /** The wait goes on past an event it skips within the deadline. */
  lemma WaitSkips(ctx: WaitContext, start: int, buffer: seq<byte>, tokenBuffer: seq<byte>,
                  inbox: seq<Event>, now: int, running: bool)
    requires |tokenBuffer| == ctx.tokenBufferSize
    requires var ev := NextEvent(inbox, now);
      && ConnectToVerdict(ev, ctx.servers, ctx.token, ctx.tokenBufferSize).Skipped?
      && inbox != [] && ev.time - start < ctx.timeout && running && !ev.Stop?
    ensures var ev := NextEvent(inbox, now);
      ConnectorWait(ctx, start, buffer, tokenBuffer, inbox, now, running)
      == ConnectorWait(ctx, start, AfterReceive(buffer, ev),
                       Overwrite(tokenBuffer, 0, ConnectToCopy(ev, ctx.servers, ctx.tokenBufferSize)),
                       RestOf(inbox), ev.time, true)
  {
    var ev := NextEvent(inbox, now);
    var v := ConnectToVerdict(ev, ctx.servers, ctx.token, ctx.tokenBufferSize);
    assert !v.Refused? && !v.Accepted? && !v.Failed? && running && !ev.Stop?;
  }

  /** Any other event ends the wait: just that event is consumed, and a
      peer is returned only when it was accepted. */
  lemma WaitStops(ctx: WaitContext, start: int, buffer: seq<byte>, tokenBuffer: seq<byte>,
                  inbox: seq<Event>, now: int, running: bool)
    requires |tokenBuffer| == ctx.tokenBufferSize
    requires var ev := NextEvent(inbox, now);
      !(&& ConnectToVerdict(ev, ctx.servers, ctx.token, ctx.tokenBufferSize).Skipped?
        && inbox != [] && ev.time - start < ctx.timeout && running && !ev.Stop?)
    ensures var r := ConnectorWait(ctx, start, buffer, tokenBuffer, inbox, now, running);
      && r.rest == RestOf(inbox)
      && (r.outcome.Normal? && r.outcome.value.Some? ==>
            inbox != [] && ConnectToVerdict(inbox[0], ctx.servers, ctx.token, ctx.tokenBufferSize) == Accepted(r.outcome.value.value))
  {
    if inbox == [] {
      var ev := NextEvent(inbox, now);
      assert !Oversized(ev) && !FromServer(ev, ctx.servers);
    }
  }

  /** The wait ends at the first event it does not skip: every event
      consumed before the last was skipped. */
  lemma {:induction false} WaitSkipsUntilLast(ctx: WaitContext, start: int, buffer: seq<byte>, tokenBuffer: seq<byte>,
                                              inbox: seq<Event>, now: int, running: bool)
    requires |tokenBuffer| == ctx.tokenBufferSize
    ensures var r := ConnectorWait(ctx, start, buffer, tokenBuffer, inbox, now, running);
      forall k | 0 <= k < |inbox| - |r.rest| - 1 ::
        ConnectToVerdict(inbox[k], ctx.servers, ctx.token, ctx.tokenBufferSize) == Skipped
    decreases |inbox|
  {
    var ev := NextEvent(inbox, now);
    var running' := running && !ev.Stop?;
    var r := ConnectorWait(ctx, start, buffer, tokenBuffer, inbox, now, running);
    if ConnectToVerdict(ev, ctx.servers, ctx.token, ctx.tokenBufferSize).Skipped?
       && inbox != [] && ev.time - start < ctx.timeout && running' {
      WaitSkips(ctx, start, buffer, tokenBuffer, inbox, now, running);
      var rest := RestOf(inbox);
      WaitSkipsUntilLast(ctx, start, AfterReceive(buffer, ev),
                         Overwrite(tokenBuffer, 0, ConnectToCopy(ev, ctx.servers, ctx.tokenBufferSize)), rest, ev.time, running');
      forall k | 0 <= k < |inbox| - |r.rest| - 1
        ensures ConnectToVerdict(inbox[k], ctx.servers, ctx.token, ctx.tokenBufferSize) == Skipped
      {
        if k > 0 {
          assert inbox[k] == rest[k - 1];
        }
      }
    } else {
      WaitStops(ctx, start, buffer, tokenBuffer, inbox, now, running);
    }
  }

  /** A returned peer is the one the last consumed event, a server's
      ConnectTo carrying the token, was accepted for; with
      WaitSkipsUntilLast, the first event the wait did not skip. */
  lemma {:induction false} WaitAcceptsOnlyConnectTo(ctx: WaitContext, start: int, buffer: seq<byte>, tokenBuffer: seq<byte>,
                                                    inbox: seq<Event>, now: int, running: bool)
    requires |tokenBuffer| == ctx.tokenBufferSize
    ensures var r := ConnectorWait(ctx, start, buffer, tokenBuffer, inbox, now, running);
      r.outcome.Normal? && r.outcome.value.Some? ==>
        && |r.rest| < |inbox|
        && ConnectToVerdict(inbox[|inbox| - |r.rest| - 1], ctx.servers, ctx.token, ctx.tokenBufferSize)
           == Accepted(r.outcome.value.value)
    decreases |inbox|
  {
    var ev := NextEvent(inbox, now);
    var r := ConnectorWait(ctx, start, buffer, tokenBuffer, inbox, now, running);
    if ConnectToVerdict(ev, ctx.servers, ctx.token, ctx.tokenBufferSize).Skipped?
       && inbox != [] && ev.time - start < ctx.timeout && running && !ev.Stop? {
      WaitSkips(ctx, start, buffer, tokenBuffer, inbox, now, running);
      var rest := RestOf(inbox);
      var tokenBuffer' := Overwrite(tokenBuffer, 0, ConnectToCopy(ev, ctx.servers, ctx.tokenBufferSize));
      WaitAcceptsOnlyConnectTo(ctx, start, AfterReceive(buffer, ev), tokenBuffer', rest, ev.time, true);
      assert r == ConnectorWait(ctx, start, AfterReceive(buffer, ev), tokenBuffer', rest, ev.time, true);
      if r.outcome.Normal? && r.outcome.value.Some? {
        var n := |rest| - |r.rest| - 1;
        assert rest == inbox[1..] && rest[n] == inbox[n + 1];
        assert ConnectToVerdict(inbox[n + 1], ctx.servers, ctx.token, ctx.tokenBufferSize) == Accepted(r.outcome.value.value);
      }
    } else {
      WaitStops(ctx, start, buffer, tokenBuffer, inbox, now, running);
    }
  }

  /** The deadline is measured from the fixed start: every event the loop
      consumed and then went past, was received before start + timeout. */
  lemma {:induction false} WaitDeadlineFixed(ctx: WaitContext, start: int, buffer: seq<byte>, tokenBuffer: seq<byte>,
                                             inbox: seq<Event>, now: int, running: bool)
    requires |tokenBuffer| == ctx.tokenBufferSize
    ensures var r := ConnectorWait(ctx, start, buffer, tokenBuffer, inbox, now, running);
      forall j | 0 <= j < |inbox| - |r.rest| - 1 :: inbox[j].time - start < ctx.timeout
    decreases |inbox|
  {
    var ev := NextEvent(inbox, now);
    var buffer' := AfterReceive(buffer, ev);
    var tokenBuffer' := Overwrite(tokenBuffer, 0, ConnectToCopy(ev, ctx.servers, ctx.tokenBufferSize));
    var running' := running && !ev.Stop?;
    var r := ConnectorWait(ctx, start, buffer, tokenBuffer, inbox, now, running);
    if ConnectToVerdict(ev, ctx.servers, ctx.token, ctx.tokenBufferSize).Skipped?
       && inbox != [] && ev.time - start < ctx.timeout && running' {
      WaitSkips(ctx, start, buffer, tokenBuffer, inbox, now, running);
      WaitDeadlineFixed(ctx, start, buffer', tokenBuffer', RestOf(inbox), ev.time, running');
      forall j | 0 <= j < |inbox| - |r.rest| - 1
        ensures inbox[j].time - start < ctx.timeout
      {
        if j > 0 {
          assert inbox[j] == RestOf(inbox)[j - 1];
        }
      }
    } else {
      WaitStops(ctx, start, buffer, tokenBuffer, inbox, now, running);
    }
  }

  // ----- Completing the punch -----

  datatype PunchVerdict =
    | Quiet                      // nothing to do: keep waiting
    | Repunch(to: EndPoint)      // the peer punched from a port not yet punched: punch it
    | Succeeded(from: EndPoint)  // the peer's PunchSuccess: the punch is complete
    | Broken(e: Exception)       // the receive throws, or the comparison indexes past an array

  /** The peer's port lies among the predicted ports P .. P+N-1. */
  predicate PortPinged(port: Port, predictions: int, observed: Port)
  {
    port <= observed < port + predictions
  }

  /** How the punch loop judges one received event. A Punch is compared
      against the session token, a PunchSuccess against the token buffer. */
  function PunchReplyVerdict(ev: Event, target: EndPoint, predictions: int, token: seq<byte>, tokenBuffer: seq<byte>): (v: PunchVerdict)
    ensures v.Repunch? ==> v.to.address == target.address
    ensures v.Succeeded? ==> ev.Datagram? && v.from == ev.from && v.from.address == target.address
  {
    if Oversized(ev) then Broken(SocketException)
    else if !(IsFrame(ev) && ev.from.address == target.address) then Quiet
    else
      var frame := FrameOf(ev);
      var size := ByteCast(|token|);
      if frame[0] == PUNCH then
        if frame[1] != size then Quiet
        else
          match Compare(frame[2..], token, size as nat)
          case Threw(e) => Broken(e)
          case Normal(same) =>
            if !same || PortPinged(target.port, predictions, ev.from.port) then Quiet
            else Repunch(EndPoint(target.address, ev.from.port))
      else if frame[0] == PUNCH_SUCCESS then
        if frame[1] != size then Quiet
        else
          match Compare(frame[2..], tokenBuffer, size as nat)
          case Threw(e) => Broken(e)
          case Normal(same) => if same then Succeeded(ev.from) else Quiet
      else Quiet
  }

  /** Frames from any other address than the target's are ignored, unless
      too long for the buffer, which makes the receive throw. */
  lemma ForeignAddressIgnored(ev: Event, target: EndPoint, predictions: int, token: seq<byte>, tokenBuffer: seq<byte>)
    requires ev.Datagram? && ev.from.address != target.address
    ensures PunchReplyVerdict(ev, target, predictions, token, tokenBuffer)
      == if Oversized(ev) then Broken(SocketException) else Quiet
  {
  }

  /** A PunchSuccess from the target's address completes the punch exactly
      when it declares the token's length and carries the token buffer's
      first bytes; the observed endpoint, port included, is returned. */
  lemma {:induction false} SuccessReturnsObserved(ev: Event, target: EndPoint, predictions: int, token: seq<byte>, tokenBuffer: seq<byte>)
    requires IsFrame(ev) && ev.from.address == target.address && FrameOf(ev)[0] == PUNCH_SUCCESS
    requires |token| <= BUFFER_SIZE - 2 && |token| <= |tokenBuffer|
    ensures PunchReplyVerdict(ev, target, predictions, token, tokenBuffer) == Succeeded(ev.from)
      <==> FrameOf(ev)[1] as nat == |token| && FrameOf(ev)[2..2 + |token|] == tokenBuffer[..|token|]
  {
    var frame := FrameOf(ev);
    CompareMeaning(frame[2..], tokenBuffer, |token|);
    assert frame[2..][..|token|] == frame[2..2 + |token|];
  }

  /** A Punch from the target's address that carries the token: from a port
      outside [P, P+N) it is punched back once at (target address, that
      port); from inside the window nothing is sent. */
  lemma {:induction false} RepunchOutsideWindow(ev: Event, target: EndPoint, predictions: int, token: seq<byte>, tokenBuffer: seq<byte>)
    requires IsFrame(ev) && ev.from.address == target.address && FrameOf(ev)[0] == PUNCH
    requires |token| <= BUFFER_SIZE - 2 && FrameOf(ev)[1] as nat == |token|
    requires FrameOf(ev)[2..2 + |token|] == token
    ensures PunchReplyVerdict(ev, target, predictions, token, tokenBuffer)
      == if PortPinged(target.port, predictions, ev.from.port) then Quiet else Repunch(EndPoint(target.address, ev.from.port))
  {
    var frame := FrameOf(ev);
    CompareMeaning(frame[2..], token, |token|);
    assert frame[2..][..|token|] == frame[2..2 + |token|];
  }

  datatype PunchContext = PunchContext(
    target: EndPoint,
    predictions: int,
    token: seq<byte>,
    tokenBuffer: seq<byte>,
    timeout: int,
    unreachable: set<EndPoint>)

  datatype PunchRun = PunchRun(outcome: Outcome<Option<EndPoint>>, packets: seq<Packet>, buffer: seq<byte>,
                               rest: seq<Event>, running: bool, now: int)

  /** `do { receive; judge } while (now - start < timeout && _isRunning)`,
      then return false. A repunch sends the received frame, then the loop
      goes on as for any other frame. */
  function ConnectorPunch(ctx: PunchContext, start: int, buffer: seq<byte>, inbox: seq<Event>, now: int, running: bool): (r: PunchRun)
    decreases |inbox|
  {
    var ev := NextEvent(inbox, now);
    var buffer' := AfterReceive(buffer, ev);
    var running' := running && !ev.Stop?;
    var v := PunchReplyVerdict(ev, ctx.target, ctx.predictions, ctx.token, ctx.tokenBuffer);
    if v.Succeeded? then PunchRun(Normal(Some(v.from)), [], buffer', RestOf(inbox), running', ev.time)
    else if v.Broken? then PunchRun(Threw(v.e), [], buffer', RestOf(inbox), running', ev.time)
    else
      var sent := if v.Repunch? then [Packet(buffer', v.to)] else [];
      if v.Repunch? && v.to in ctx.unreachable then
        PunchRun(Threw(SocketSendException), sent, buffer', RestOf(inbox), running', ev.time)
      else if inbox != [] && ev.time - start < ctx.timeout && running' then
        var r := ConnectorPunch(ctx, start, buffer', RestOf(inbox), ev.time, running');
        r.(packets := sent + r.packets)
      else PunchRun(Normal(None), sent, buffer', RestOf(inbox), running', ev.time)
  }

  /** Everything the punch loop sends goes to the target's address, and the
      endpoint it returns has the target's address. */
  lemma {:induction false} PunchStaysWithTarget(ctx: PunchContext, start: int, buffer: seq<byte>, inbox: seq<Event>, now: int, running: bool)
    ensures var r := ConnectorPunch(ctx, start, buffer, inbox, now, running);
      && (forall p | p in r.packets :: p.to.address == ctx.target.address)
      && (r.outcome.Normal? && r.outcome.value.Some? ==> r.outcome.value.value.address == ctx.target.address)
    decreases |inbox|
  {
    var ev := NextEvent(inbox, now);
    var buffer' := AfterReceive(buffer, ev);
    var running' := running && !ev.Stop?;
    var v := PunchReplyVerdict(ev, ctx.target, ctx.predictions, ctx.token, ctx.tokenBuffer);
    if !v.Succeeded? && !v.Broken? && !(v.Repunch? && v.to in ctx.unreachable)
       && inbox != [] && ev.time - start < ctx.timeout && running' {
      PunchStaysWithTarget(ctx, start, buffer', RestOf(inbox), ev.time, running');
    }
  }

  /** ConnectorPunch one event at a time: an event that leaves the loop
      waiting, within the deadline, hands over to the rest of the inbox;
      any other consumes just that event, and returns an endpoint only on a
      PunchSuccess. */
  lemma PunchTurn(ctx: PunchContext, start: int, buffer: seq<byte>, inbox: seq<Event>, now: int, running: bool)
    ensures var ev := NextEvent(inbox, now);
      var r := ConnectorPunch(ctx, start, buffer, inbox, now, running);
      var v := PunchReplyVerdict(ev, ctx.target, ctx.predictions, ctx.token, ctx.tokenBuffer);
      var running' := running && !ev.Stop?;
      if (v.Quiet? || (v.Repunch? && v.to !in ctx.unreachable)) && inbox != [] && ev.time - start < ctx.timeout && running' then
        var next := ConnectorPunch(ctx, start, AfterReceive(buffer, ev), RestOf(inbox), ev.time, running');
        r.rest == next.rest && r.outcome == next.outcome
      else
        && r.rest == RestOf(inbox)
        && (r.outcome.Normal? && r.outcome.value.Some? ==> inbox != [] && v == Succeeded(r.outcome.value.value))
  {
  }

  /** The punch loop ends at the first event that does not leave it
      waiting: the unread events are a suffix of the inbox, every event
      consumed before the last was ignored or punched back, and a returned
      endpoint is the last consumed event's PunchSuccess sender. */
  lemma {:induction false} PunchEndsAtReply(ctx: PunchContext, start: int, buffer: seq<byte>, inbox: seq<Event>, now: int, running: bool)
    ensures var r := ConnectorPunch(ctx, start, buffer, inbox, now, running);
      |r.rest| <= |inbox| && r.rest == inbox[|inbox| - |r.rest|..]
    ensures var r := ConnectorPunch(ctx, start, buffer, inbox, now, running);
      forall k | 0 <= k < |inbox| - |r.rest| - 1 ::
        var v := PunchReplyVerdict(inbox[k], ctx.target, ctx.predictions, ctx.token, ctx.tokenBuffer);
        v.Quiet? || (v.Repunch? && v.to !in ctx.unreachable)
    ensures var r := ConnectorPunch(ctx, start, buffer, inbox, now, running);
      r.outcome.Normal? && r.outcome.value.Some? ==>
        && |r.rest| < |inbox|
        && PunchReplyVerdict(inbox[|inbox| - |r.rest| - 1], ctx.target, ctx.predictions, ctx.token, ctx.tokenBuffer)
           == Succeeded(r.outcome.value.value)
    decreases |inbox|
  {
    var ev := NextEvent(inbox, now);
    var buffer' := AfterReceive(buffer, ev);
    var running' := running && !ev.Stop?;
    var r := ConnectorPunch(ctx, start, buffer, inbox, now, running);
    var v := PunchReplyVerdict(ev, ctx.target, ctx.predictions, ctx.token, ctx.tokenBuffer);
    PunchTurn(ctx, start, buffer, inbox, now, running);
    if (v.Quiet? || (v.Repunch? && v.to !in ctx.unreachable)) && inbox != [] && ev.time - start < ctx.timeout && running' {
      var rest := RestOf(inbox);
      PunchEndsAtReply(ctx, start, buffer', rest, ev.time, running');
      assert r.rest == inbox[|inbox| - |r.rest|..];
      forall k | 0 <= k < |inbox| - |r.rest| - 1
        ensures var w := PunchReplyVerdict(inbox[k], ctx.target, ctx.predictions, ctx.token, ctx.tokenBuffer);
          w.Quiet? || (w.Repunch? && w.to !in ctx.unreachable)
      {
        if k > 0 {
          assert inbox[k] == rest[k - 1];
        }
      }
      if r.outcome.Normal? && r.outcome.value.Some? {
        assert inbox[|inbox| - |r.rest| - 1] == rest[|rest| - |r.rest| - 1];
      }
    } else if r.outcome.Normal? && r.outcome.value.Some? {
      assert ev == inbox[0];
    }
  }

  // ----- The whole connector session -----

  /** What TryPunch leaves behind: its result (the punched endpoint, false,
      or an exception), every frame sent, the two buffers, the unread
      events, the running flag and the clock. */
  datatype Session = Session(outcome: Outcome<Option<EndPoint>>, packets: seq<Packet>, buffer: seq<byte>,
                             tokenBuffer: seq<byte>, rest: seq<Event>, running: bool, now: int)

  /** TryPunch after the bind, for an IPv4 target and the session token:
      register with every server, then wait and punch. */
  function ConnectorSession(config: Config, unreachable: set<EndPoint>, target: IPv4, token: seq<byte>,
                            tokenBuffer: seq<byte>, inbox: seq<Event>, now: int): Session
    requires |token| == SESSION_TOKEN_LENGTH && |tokenBuffer| == config.tokenBufferSize
  {
    var reg := RegisterBroadcast(Some(target), token, config.servers, unreachable);
    if reg.thrown.Some? then
      Session(Threw(reg.thrown.value), reg.packets, RegisterFrame(Some(target), token), tokenBuffer, inbox, true, now)
    else
      var s := AwaitAndPunch(config, unreachable, target, token, tokenBuffer, inbox, now);
      s.(packets := reg.packets + s.packets)
  }

  /** TryPunch once registered: wait for a ConnectTo, drop a peer at another
      address when asked to, punch the peer's predicted ports, wait for its
      PunchSuccess. An exception and a dropped peer leave the running flag
      set; every other end clears it. */
  function AwaitAndPunch(config: Config, unreachable: set<EndPoint>, target: IPv4, token: seq<byte>,
                         tokenBuffer: seq<byte>, inbox: seq<Event>, now: int): Session
    requires |token| == SESSION_TOKEN_LENGTH && |tokenBuffer| == config.tokenBufferSize
  {
    var wctx := WaitContext(config.servers, token, config.tokenBufferSize, config.serverRegisterResponseTimeout, false);
    PunchAfterWait(config, unreachable, target, token, ConnectorWait(wctx, now, RegisterFrame(Some(target), token), tokenBuffer, inbox, now, true))
  }

  /** TryPunch once the wait `w` has ended. */
  function PunchAfterWait(config: Config, unreachable: set<EndPoint>, target: IPv4, token: seq<byte>, w: WaitRun): Session
    requires |token| == SESSION_TOKEN_LENGTH && |w.buffer| == BUFFER_SIZE
  {
    if w.outcome.Threw? then Session(w.outcome, [], w.buffer, w.tokenBuffer, w.rest, w.running, w.now)
    else if w.outcome.value.None? then Session(Normal(None), [], w.buffer, w.tokenBuffer, w.rest, false, w.now)
    else
      var peer := w.outcome.value.value;
      if config.dropUnknownAddresses && peer.address != target then
        Session(Normal(None), [], w.buffer, w.tokenBuffer, w.rest, w.running, w.now)
      else PunchPeerSession(config, unreachable, token, peer, w)
  }

  /** TryPunch once it keeps the peer: punch the peer's predicted ports
      with the buffer's Punch frame, then wait for its PunchSuccess. */
  function PunchPeerSession(config: Config, unreachable: set<EndPoint>, token: seq<byte>, peer: EndPoint, w: WaitRun): Session
    requires |token| == SESSION_TOKEN_LENGTH && |w.buffer| == BUFFER_SIZE
  {
    var punch := PunchHeader(token) + w.buffer[2 + |token|..];
    var burst := PunchBurst(punch, peer, config.portPredictions, unreachable);
    if burst.thrown.Some? then
      Session(Threw(burst.thrown.value), burst.packets, punch, w.tokenBuffer, w.rest, w.running, w.now)
    else
      var pctx := PunchContext(peer, config.portPredictions, token, w.tokenBuffer, config.punchResponseTimeout, unreachable);
      var p := ConnectorPunch(pctx, w.now, punch, w.rest, w.now, w.running);
      Session(p.outcome, burst.packets + p.packets, p.buffer, w.tokenBuffer, p.rest,
              p.outcome.Threw? && p.running, p.now)
  }

  /** Once the wait has ended: a punched endpoint has the address of the
      peer the wait returned, clears the running flag and, when unknown
      addresses are dropped, has the address asked for. */
  lemma PunchedPeerWasAwaited(config: Config, unreachable: set<EndPoint>, target: IPv4, token: seq<byte>, w: WaitRun)
    requires |token| == SESSION_TOKEN_LENGTH && |w.buffer| == BUFFER_SIZE
    ensures var s := PunchAfterWait(config, unreachable, target, token, w);
      s.outcome.Normal? && s.outcome.value.Some? ==>
        && w.outcome.Normal? && w.outcome.value.Some?
        && s.outcome.value.value.address == w.outcome.value.value.address
        && !s.running
        && (config.dropUnknownAddresses ==> s.outcome.value.value.address == target)
  {
    if w.outcome.Normal? && w.outcome.value.Some? {
      var peer := w.outcome.value.value;
      var punch := PunchHeader(token) + w.buffer[2 + |token|..];
      var pctx := PunchContext(peer, config.portPredictions, token, w.tokenBuffer, config.punchResponseTimeout, unreachable);
      PunchStaysWithTarget(pctx, w.now, punch, w.rest, w.now, w.running);
    }
  }

  /** A wait that ends with false, or with a peer at another address when
      unknown addresses are dropped, makes TryPunch return false without a
      punch; only the first of these clears the running flag. */
  lemma NoPeerNoPunch(config: Config, unreachable: set<EndPoint>, target: IPv4, token: seq<byte>, w: WaitRun)
    requires |token| == SESSION_TOKEN_LENGTH && |w.buffer| == BUFFER_SIZE
    requires w.outcome.Normal?
    requires w.outcome.value.None? || (config.dropUnknownAddresses && w.outcome.value.value.address != target)
    ensures var s := PunchAfterWait(config, unreachable, target, token, w);
      && s.outcome == Normal(None) && s.packets == []
      && s.running == (w.outcome.value.Some? && w.running)
  {
  }

  /** The session's failure path: when the Register goes out and the wait
      returns no peer, or a dropped one, TryPunch returns false having sent
      only the Register frames. */
  lemma {:induction false} SessionWithoutPeerSendsNoPunch(config: Config, unreachable: set<EndPoint>, target: IPv4, token: seq<byte>,
                                                          tokenBuffer: seq<byte>, inbox: seq<Event>, now: int)
    requires |token| == SESSION_TOKEN_LENGTH && |tokenBuffer| == config.tokenBufferSize
    ensures var reg := RegisterBroadcast(Some(target), token, config.servers, unreachable);
      var wctx := WaitContext(config.servers, token, config.tokenBufferSize, config.serverRegisterResponseTimeout, false);
      var w := ConnectorWait(wctx, now, RegisterFrame(Some(target), token), tokenBuffer, inbox, now, true);
      var s := ConnectorSession(config, unreachable, target, token, tokenBuffer, inbox, now);
      reg.thrown.None? && w.outcome.Normal?
      && (w.outcome.value.None? || (config.dropUnknownAddresses && w.outcome.value.value.address != target)) ==>
        s.outcome == Normal(None) && s.packets == reg.packets
  {
    var reg := RegisterBroadcast(Some(target), token, config.servers, unreachable);
    var wctx := WaitContext(config.servers, token, config.tokenBufferSize, config.serverRegisterResponseTimeout, false);
    var w := ConnectorWait(wctx, now, RegisterFrame(Some(target), token), tokenBuffer, inbox, now, true);
    if reg.thrown.None? && w.outcome.Normal?
       && (w.outcome.value.None? || (config.dropUnknownAddresses && w.outcome.value.value.address != target)) {
      NoPeerNoPunch(config, unreachable, target, token, w);
      SessionAfterWait(config, unreachable, target, token, tokenBuffer, inbox, now);
      assert reg.packets + [] == reg.packets;
    }
  }

  /** ConnectorSession in terms of the wait: a failed Register broadcast
      throws; otherwise the session is PunchAfterWait of the wait, after
      the Register frames. */
  lemma SessionAfterWait(config: Config, unreachable: set<EndPoint>, target: IPv4, token: seq<byte>,
                         tokenBuffer: seq<byte>, inbox: seq<Event>, now: int)
    requires |token| == SESSION_TOKEN_LENGTH && |tokenBuffer| == config.tokenBufferSize
    ensures var reg := RegisterBroadcast(Some(target), token, config.servers, unreachable);
      var wctx := WaitContext(config.servers, token, config.tokenBufferSize, config.serverRegisterResponseTimeout, false);
      var w := ConnectorWait(wctx, now, RegisterFrame(Some(target), token), tokenBuffer, inbox, now, true);
      var s := ConnectorSession(config, unreachable, target, token, tokenBuffer, inbox, now);
      var after := PunchAfterWait(config, unreachable, target, token, w);
      && (reg.thrown.Some? ==> s.outcome.Threw?)
      && (reg.thrown.None? ==>
            s.outcome == after.outcome && s.running == after.running && s.packets == reg.packets + after.packets)
  {
  }

  /** A session that punches through clears the running flag and returns an
      endpoint at the address of a peer a server's ConnectTo announced; when
      unknown addresses are dropped, that is the address asked for. */
  lemma {:induction false} SessionReturnsAnnouncedPeer(config: Config, unreachable: set<EndPoint>, target: IPv4, token: seq<byte>,
                                                       tokenBuffer: seq<byte>, inbox: seq<Event>, now: int)
    requires |token| == SESSION_TOKEN_LENGTH && |tokenBuffer| == config.tokenBufferSize
    ensures var s := ConnectorSession(config, unreachable, target, token, tokenBuffer, inbox, now);
      s.outcome.Normal? && s.outcome.value.Some? ==>
        var punched := s.outcome.value.value;
        && !s.running
        && (config.dropUnknownAddresses ==> punched.address == target)
        && exists j | 0 <= j < |inbox| ::
             var v := ConnectToVerdict(inbox[j], config.servers, token, config.tokenBufferSize);
             v.Accepted? && v.peer.address == punched.address
  {
    var s := ConnectorSession(config, unreachable, target, token, tokenBuffer, inbox, now);
    var reg := RegisterBroadcast(Some(target), token, config.servers, unreachable);
    SessionAfterWait(config, unreachable, target, token, tokenBuffer, inbox, now);
    if reg.thrown.None? && s.outcome.Normal? && s.outcome.value.Some? {
      var wctx := WaitContext(config.servers, token, config.tokenBufferSize, config.serverRegisterResponseTimeout, false);
      var frame := RegisterFrame(Some(target), token);
      var w := ConnectorWait(wctx, now, frame, tokenBuffer, inbox, now, true);
      WaitAcceptsOnlyConnectTo(wctx, now, frame, tokenBuffer, inbox, now, true);
      PunchedPeerWasAwaited(config, unreachable, target, token, w);
      var peer := w.outcome.value.value;
      var j := |inbox| - |w.rest| - 1;
      assert ConnectToVerdict(inbox[j], config.servers, token, config.tokenBufferSize) == Accepted(peer);
    }
  }
}
