/** The hole-punching client (PuncherClient): a listener registers with
    the servers and answers punches, a connector asks a server for a
    listener's endpoint and punches it. Every method is proved against the
    functions of ClientFrames, ListenerLogic and ConnectorLogic. */
module Client {
  import opened Wire
  import opened Transport
  import opened ClientFrames
  import opened ListenerLogic
  import opened ConnectorLogic

  class PuncherClient {
    const transport: UdpTransport
    const config: Config
    /** Whether a handler is attached to OnConnectorPunchSuccessful. */
    const hasPunchListener: bool
    /** _isRunning; another thread's Close arrives as a Stop event. */
    var isRunning: bool
    const buffer: array<byte>
    const tokenBuffer: array<byte>
    /** The endpoints handed to OnConnectorPunchSuccessful, in order. */
    var punchEvents: seq<EndPoint>

    ghost predicate Valid()
      reads this
    {
      buffer.Length == BUFFER_SIZE && tokenBuffer.Length == config.tokenBufferSize && buffer != tokenBuffer
    }

    constructor (t: UdpTransport, c: Config, listener: bool)
      ensures Valid() && transport == t && config == c && hasPunchListener == listener
      ensures !isRunning && punchEvents == []
      ensures fresh(buffer) && fresh(tokenBuffer)
    {
      transport := t;
      config := c;
      hasPunchListener := listener;
      isRunning := false;
      buffer := new byte[BUFFER_SIZE](_ => 0);
      tokenBuffer := new byte[c.tokenBufferSize](_ => 0);
      punchEvents := [];
    }

    /** Sends the buffer to each target in order; a short send throws. */
    method SendToAll(targets: seq<EndPoint>) returns (thrown: Option<Exception>)
      requires Valid()
      modifies transport`sent
      ensures var r := SendAll(buffer[..], targets, transport.unreachable);
        transport.sent == old(transport.sent) + r.packets && thrown == r.thrown
    {
      ghost var frame := buffer[..];
      ghost var done: seq<Packet> := [];
      var i := 0;
      while i < |targets|
        invariant 0 <= i <= |targets|
        invariant transport.sent == old(transport.sent) + done
        invariant var rest := SendAll(frame, targets[i..], transport.unreachable);
          SendAll(frame, targets, transport.unreachable) == Sends(done + rest.packets, rest.thrown)
      {
        SendAllFrom(frame, targets, i, transport.unreachable, done);
        var size := transport.SendTo(buffer, targets[i]);
        done := done + [Packet(frame, targets[i])];
        if size != BUFFER_SIZE {
          return Some(SocketSendException);
        }
        i := i + 1;
      }
      return None;
    }

    /** Writes a Register frame (the connector's when `connect` names a
        target, else the listener's) and sends it to every server. */
    method SendRegisterRequest(connect: Option<IPv4>, token: seq<byte>) returns (thrown: Option<Exception>)
      requires Valid()
      modifies buffer, transport`sent
      ensures var r := RegisterBroadcast(connect, token, config.servers, transport.unreachable);
        transport.sent == old(transport.sent) + r.packets && thrown == r.thrown
      ensures RegisterFits(connect, token) ==> buffer[..] == RegisterFrame(connect, token)
      ensures !RegisterFits(connect, token) ==>
        buffer[..] == [REGISTER, 1] + connect.value.Bytes() + [DeclaredTokenLength(|token|)] + Zeros(BUFFER_SIZE - 7)
    {
      Clear(buffer, 0, BUFFER_SIZE);
      buffer[0] := REGISTER;
      if connect.Some? {
        buffer[1] := 1;
        var ok := BlockCopy(connect.value.Bytes(), 0, buffer, 2, 4);
        buffer[6] := DeclaredTokenLength(|token|);
        ghost var header := buffer[..];
        assert header == [REGISTER, 1] + connect.value.Bytes() + [DeclaredTokenLength(|token|)] + Zeros(BUFFER_SIZE - 7);
        ok := BlockCopy(token, 0, buffer, 7, |token|);
        if !ok {
          return Some(ArgumentException);
        }
        assert buffer[..] == RegisterFrame(connect, token);
      } else {
        buffer[1] := 2;
        assert buffer[..] == RegisterFrame(connect, token);
      }
      thrown := SendToAll(config.servers);
    }

    /** Writes a Punch frame carrying `token` over the buffer's front and
        sends it to the predicted ports of `peer`. */
    method SendPunches(peer: EndPoint, token: seq<byte>) returns (thrown: Option<Exception>)
      requires Valid()
      modifies buffer, transport`sent
      ensures var n := ByteCast(|token|) as nat;
        && (2 + n > BUFFER_SIZE ==>
              && thrown == Some(ArgumentException) && transport.sent == old(transport.sent)
              && buffer[..] == [PUNCH, ByteCast(|token|)] + old(buffer[..])[2..])
        && (2 + n <= BUFFER_SIZE ==>
              var frame := PunchHeader(token[..n]) + old(buffer[..])[2 + n..];
              var r := PunchBurst(frame, peer, config.portPredictions, transport.unreachable);
              && buffer[..] == frame
              && transport.sent == old(transport.sent) + r.packets && thrown == r.thrown)
    {
      buffer[0] := PUNCH;
      var count := ByteCast(|token|);
      buffer[1] := count;
      ghost var header := buffer[..];
      var ok := BlockCopy(token, 0, buffer, 2, count as int);
      if !ok {
        return Some(ArgumentException);
      }
      ghost var frame := PunchHeader(token[..count]) + old(buffer[..])[2 + count as int..];
      assert forall k | 0 <= k < BUFFER_SIZE :: buffer[..][k] == frame[k];
      assert buffer[..] == frame;
      thrown := PunchPredictedPorts(peer);
    }

    /** SendPunches' loop: send the buffer to P, P+1, ... for each port
        prediction; a port past 65535 or a short send throws. */
    method PunchPredictedPorts(peer: EndPoint) returns (thrown: Option<Exception>)
      requires Valid()
      modifies transport`sent
      ensures var r := PunchBurst(buffer[..], peer, config.portPredictions, transport.unreachable);
        transport.sent == old(transport.sent) + r.packets && thrown == r.thrown
    {
      ghost var frame := buffer[..];
      ghost var n := ValidPunchCount(peer.port, config.portPredictions);
      ghost var targets := PunchTargets(peer, n);
      ghost var done: seq<Packet> := [];
      var i := 0;
      while i < config.portPredictions
        invariant 0 <= i <= n
        invariant transport.sent == old(transport.sent) + done
        invariant var rest := SendAll(frame, targets[i..], transport.unreachable);
          SendAll(frame, targets, transport.unreachable) == Sends(done + rest.packets, rest.thrown)
      {
        if peer.port + i > MAX_PORT {
          assert targets[i..] == [];
          return Some(ArgumentOutOfRangeException);
        }
        SendAllFrom(frame, targets, i, transport.unreachable, done);
        ghost var to := targets[i];
        assert to == EndPoint(peer.address, peer.port + i);
        var size := transport.SendTo(buffer, EndPoint(peer.address, peer.port + i));
        done := done + [Packet(frame, to)];
        if size != BUFFER_SIZE {
          return Some(SocketSendException);
        }
        i := i + 1;
      }
      return None;
    }

    /** The loop `for i < n: if a[i] != b[i] then mismatch`. */
    method CompareBytes(a: seq<byte>, b: seq<byte>, n: nat) returns (r: Outcome<bool>)
      ensures r == Compare(a, b, n)
    {
      var i := 0;
      while i < n
        invariant 0 <= i <= n
        invariant Compare(a, b, n) == CompareFrom(a, b, n, i)
      {
        if i >= |a| || i >= |b| {
          return Threw(IndexOutOfRangeException);
        }
        if a[i] != b[i] {
          return Normal(false);
        }
        i := i + 1;
      }
      return Normal(true);
    }

    /** The hasPingedPort loop: whether `observed` is one of the ports the
        burst at `port` punched. */
    method HasPingedPort(port: Port, observed: Port) returns (pinged: bool)
      ensures pinged == PortPinged(port, config.portPredictions, observed)
    {
      pinged := false;
      var x := 0;
      while x < config.portPredictions
        invariant 0 <= x && (config.portPredictions >= 0 ==> x <= config.portPredictions)
        invariant !PortPinged(port, x, observed)
      {
        if port + x == observed {
          return true;
        }
        x := x + 1;
      }
    }

    /** The indexOfEndPointStatus loop. */
    method FindStatus(statuses: array<ListenerResponseStatus>, ep: EndPoint) returns (index: int)
      ensures index == IndexOfStatus(statuses[..], ep)
    {
      var i := 0;
      while i < statuses.Length
        invariant 0 <= i <= statuses.Length
        invariant forall k | 0 <= k < i :: statuses[k].endPoint != ep
      {
        if statuses[i].endPoint == ep {
          return i;
        }
        i := i + 1;
      }
      return -1;
    }

    /** The resend and timeout loop of RunListenerJob, at the time of the
        last receive: a due status sends a new Register to every server and
        is marked waiting; an overdue one throws when asked to. */
    method ResendRegistrations(statuses: array<ListenerResponseStatus>, timeoutException: bool) returns (thrown: Option<Exception>)
      requires Valid()
      modifies statuses, buffer, transport`sent
      ensures var p := ResendPass(old(statuses[..]), transport.now, config.serverRegisterInterval,
                                  config.serverRegisterResponseTimeout, timeoutException,
                                  RegisterBroadcast(None, [], config.servers, transport.unreachable));
        && statuses[..] == p.statuses
        && transport.sent == old(transport.sent) + p.packets && thrown == p.thrown
        && (p.resent ==> buffer[..] == ListenerRegisterFrame())
        && (!p.resent ==> buffer[..] == old(buffer[..]))
    {
      ghost var now := transport.now;
      ghost var broadcast := RegisterBroadcast(None, [], config.servers, transport.unreachable);
      ghost var initial := statuses[..];
      ghost var base := transport.sent;
      ghost var original := buffer[..];
      ghost var whole := ResendPass(initial, now, config.serverRegisterInterval, config.serverRegisterResponseTimeout,
                                    timeoutException, broadcast);
      ghost var prefix: seq<ListenerResponseStatus> := [];
      ghost var done: seq<Packet> := [];
      ghost var resent := false;
      var i := 0;
      while i < statuses.Length
        invariant 0 <= i <= statuses.Length && |prefix| == i
        invariant transport.sent == base + done
        invariant resent ==> buffer[..] == ListenerRegisterFrame()
        invariant !resent ==> buffer[..] == original
        invariant statuses[..] == prefix + initial[i..]
        invariant whole == Glue(prefix, done, resent, ResendPass(initial[i..], now, config.serverRegisterInterval,
                                                                 config.serverRegisterResponseTimeout, timeoutException, broadcast))
      {
        thrown, prefix, done, resent := ResendNext(statuses, i, timeoutException, initial, prefix, done, resent, base, original);
        if thrown.Some? {
          return;
        }
        i := i + 1;
      }
      GlueDone(prefix, done, resent, initial[i..], now, config.serverRegisterInterval, config.serverRegisterResponseTimeout,
               timeoutException, broadcast);
      return None;
    }

    /** One turn of the resend and timeout loop, with the loop's bookkeeping:
        the statuses done so far, the Registers sent so far and whether one
        was written into the buffer. On a throw the whole pass is known;
        otherwise the pass over what is left moves on by one status. */
    method ResendNext(statuses: array<ListenerResponseStatus>, i: nat, timeoutException: bool,
                      ghost initial: seq<ListenerResponseStatus>, ghost prefix: seq<ListenerResponseStatus>,
                      ghost done: seq<Packet>, ghost resent: bool, ghost base: seq<Packet>, ghost original: seq<byte>)
      returns (thrown: Option<Exception>, ghost prefix': seq<ListenerResponseStatus>, ghost done': seq<Packet>, ghost resent': bool)
      requires Valid() && i < statuses.Length == |initial| && |prefix| == i && statuses[..] == prefix + initial[i..]
      requires transport.sent == base + done
      requires resent ==> buffer[..] == ListenerRegisterFrame()
      requires !resent ==> buffer[..] == original
      modifies statuses, buffer, transport`sent
      ensures |prefix'| == i + 1 && transport.sent == base + done'
      ensures resent' ==> buffer[..] == ListenerRegisterFrame()
      ensures !resent' ==> buffer[..] == original
      ensures var now := transport.now;
        var b := RegisterBroadcast(None, [], config.servers, transport.unreachable);
        var before := Glue(prefix, done, resent, ResendPass(initial[i..], now, config.serverRegisterInterval,
                                                            config.serverRegisterResponseTimeout, timeoutException, b));
        && (thrown.Some? ==> before == Pass(statuses[..], done', resent', thrown))
        && (thrown.None? ==>
              && statuses[..] == prefix' + initial[i + 1..]
              && before == Glue(prefix', done', resent', ResendPass(initial[i + 1..], now, config.serverRegisterInterval,
                                                                   config.serverRegisterResponseTimeout, timeoutException, b)))
    {
      ghost var x, sent, due;
      thrown, x, sent, due := ResendAt(statuses, i, timeoutException, prefix, initial[i..]);
      prefix', done', resent' := prefix + [x], done + sent, resent || due;
      AppendAssoc(base, done, sent);
      ResendTurn(initial, i, prefix, done, resent, transport.now, config.serverRegisterInterval, config.serverRegisterResponseTimeout,
                 timeoutException, RegisterBroadcast(None, [], config.servers, transport.unreachable), x, sent, due, thrown, statuses[..]);
    }

    /** The loop body for status i, with the statuses split into those
        already done and those still to do: the pass over what is left is
        this status's step followed by the pass over the rest. */
    method ResendAt(statuses: array<ListenerResponseStatus>, i: nat, timeoutException: bool,
                    ghost prefix: seq<ListenerResponseStatus>, ghost rest: seq<ListenerResponseStatus>)
      returns (thrown: Option<Exception>, ghost x: ListenerResponseStatus, ghost sent: seq<Packet>, ghost due: bool)
      requires Valid() && i < statuses.Length && |prefix| == i && statuses[..] == prefix + rest
      modifies statuses, buffer, transport`sent
      ensures rest != []
      ensures var b := RegisterBroadcast(None, [], config.servers, transport.unreachable);
        && ResendTurnOf(rest, transport.now, config.serverRegisterInterval, config.serverRegisterResponseTimeout,
                        timeoutException, b, x, sent, due, thrown)
        && statuses[..] == prefix + [x] + rest[1..]
        && transport.sent == old(transport.sent) + sent
        && (due ==> buffer[..] == ListenerRegisterFrame())
        && (!due ==> buffer[..] == old(buffer[..]))
    {
      assert statuses[i] == rest[0];
      ghost var now := transport.now;
      ghost var b := RegisterBroadcast(None, [], config.servers, transport.unreachable);
      due := ResendDue(rest[0], now, config.serverRegisterInterval);
      sent := if due then b.packets else [];
      var refreshed, overdue;
      refreshed, thrown, overdue := ResendOne(statuses[i], timeoutException);
      if thrown.Some? {
        x := rest[0];
        assert rest == [x] + rest[1..];
        return;
      }
      statuses[i] := refreshed;
      x := refreshed;
      UpdateAtSplit(prefix, rest, refreshed);
      if overdue {
        thrown := Some(ServerNotReachableException);
      }
    }

    /** One status of the resend and timeout loop: refreshed (after a
        successful Register when due), then tested for a missed response. */
    method ResendOne(s: ListenerResponseStatus, timeoutException: bool) returns (s': ListenerResponseStatus, thrown: Option<Exception>, overdue: bool)
      requires Valid()
      modifies buffer, transport`sent
      ensures var now := transport.now;
        var due := ResendDue(s, now, config.serverRegisterInterval);
        var b := RegisterBroadcast(None, [], config.servers, transport.unreachable);
        && transport.sent == old(transport.sent) + (if due then b.packets else [])
        && (due ==> buffer[..] == ListenerRegisterFrame())
        && (!due ==> buffer[..] == old(buffer[..]))
        && thrown == (if due then b.thrown else None)
        && s' == Refresh(s, now, config.serverRegisterInterval)
        && overdue == (thrown.None? && timeoutException && ResponseOverdue(s', now, config.serverRegisterResponseTimeout))
    {
      s' := s;
      thrown := None;
      if !s.isWaitingForResponse && transport.now - s.lastRegisterTime > config.serverRegisterInterval {
        thrown := SendRegisterRequest(None, []);
        s' := s.(isWaitingForResponse := true, lastRegisterTime := transport.now);
        if thrown.Some? {
          return s', thrown, false;
        }
      }
      overdue := s'.isWaitingForResponse
        && transport.now - s'.lastRegisterTime > config.serverRegisterResponseTimeout && timeoutException;
    }

    /** RunListenerJob: register with every server, then loop until
        stopped, answering punches and keeping the registrations fresh. */
    method RunListenerJob(exitOnSuccess: bool, timeoutException: bool) returns (endpoint: Option<EndPoint>, thrown: Option<Exception>)
      requires Valid()
      modifies this`isRunning, this`punchEvents, buffer, tokenBuffer
      modifies transport`sent, transport`inbox, transport`now, transport`received
      ensures var ctx := ListenerContext(config, transport.unreachable, exitOnSuccess, timeoutException, hasPunchListener);
        var r := ListenerJob(ctx, old(tokenBuffer[..]), old(transport.inbox), old(transport.now), old(isRunning));
        && transport.sent == old(transport.sent) + r.packets
        && punchEvents == old(punchEvents) + r.reported
        && endpoint == r.exit && thrown == r.thrown
        && tokenBuffer[..] == r.tokenBuffer
        && transport.inbox == r.rest && transport.now == r.now && isRunning == r.running
    {
      thrown := SendRegisterRequest(None, []);
      if thrown.Some? {
        return None, thrown;
      }
      ghost var registered := transport.sent[|old(transport.sent)|..];
      assert transport.sent == old(transport.sent) + registered;
      var statuses := InitialStatusArray();
      endpoint, thrown := ListenLoop(statuses, exitOnSuccess, timeoutException);
      ghost var ctx := ListenerContext(config, transport.unreachable, exitOnSuccess, timeoutException, hasPunchListener);
      ghost var r := RunListener(ctx, InitialStatuses(config.servers, old(transport.now)), old(tokenBuffer[..]),
                                 old(transport.inbox), old(transport.now), old(isRunning));
      AppendAssoc(old(transport.sent), registered, r.packets);
    }

    /** `while (_isRunning) { ... }` of RunListenerJob. */
    method ListenLoop(statuses: array<ListenerResponseStatus>, exitOnSuccess: bool, timeoutException: bool)
      returns (endpoint: Option<EndPoint>, thrown: Option<Exception>)
      requires Valid() && Tracks(statuses[..], config.servers)
      modifies this`isRunning, this`punchEvents, buffer, tokenBuffer, statuses
      modifies transport`sent, transport`inbox, transport`now, transport`received
      ensures var ctx := ListenerContext(config, transport.unreachable, exitOnSuccess, timeoutException, hasPunchListener);
        var r := RunListener(ctx, old(statuses[..]), old(tokenBuffer[..]), old(transport.inbox), old(transport.now), old(isRunning));
        && transport.sent == old(transport.sent) + r.packets
        && punchEvents == old(punchEvents) + r.reported
        && endpoint == r.exit && thrown == r.thrown
        && tokenBuffer[..] == r.tokenBuffer
        && transport.inbox == r.rest && transport.now == r.now && isRunning == r.running
    {
      ghost var ctx := ListenerContext(config, transport.unreachable, exitOnSuccess, timeoutException, hasPunchListener);
      ghost var whole := RunListener(ctx, statuses[..], tokenBuffer[..], transport.inbox, transport.now, isRunning);
      assert whole == RunListener(ctx, old(statuses[..]), old(tokenBuffer[..]), old(transport.inbox), old(transport.now), old(isRunning));
      ghost var done: seq<Packet> := [];
      ghost var reported: seq<EndPoint> := [];
      assert [] + whole.packets == whole.packets && [] + whole.reported == whole.reported;
      endpoint, thrown := None, None;
      while isRunning
        invariant Valid() && Tracks(statuses[..], config.servers)
        invariant endpoint.None? && thrown.None?
        invariant transport.sent == old(transport.sent) + done
        invariant punchEvents == old(punchEvents) + reported
        invariant whole == Extend(done, reported, RunListener(ctx, statuses[..], tokenBuffer[..], transport.inbox, transport.now, isRunning))
        decreases |transport.inbox|, if isRunning then 1 else 0
      {
        ghost var ev := NextEvent(transport.inbox, transport.now);
        ghost var it := ListenerIteration(ctx, statuses[..], tokenBuffer[..], ev);
        RunListenerUnfold(ctx, statuses[..], tokenBuffer[..], transport.inbox, transport.now);
        ghost var done0, reported0 := done, reported;
        endpoint, thrown := ListenerStep(statuses, exitOnSuccess, timeoutException);
        AppendAssoc(old(transport.sent), done0, it.packets);
        AppendAssoc(old(punchEvents), reported0, it.reported);
        done, reported := done + it.packets, reported + it.reported;
        if thrown.Some? || endpoint.Some? {
          assert whole.packets == done && whole.reported == reported;
          return;
        }
        ExtendStep(done0, reported0, it.packets, it.reported,
                   RunListener(ctx, statuses[..], tokenBuffer[..], transport.inbox, transport.now, isRunning));
      }
    }

    /** The status array RunListenerJob starts from: one entry per server,
        not waiting, stamped now. */
    method InitialStatusArray() returns (statuses: array<ListenerResponseStatus>)
      ensures fresh(statuses) && statuses[..] == InitialStatuses(config.servers, transport.now)
    {
      statuses := new ListenerResponseStatus[|config.servers|];
      var i := 0;
      while i < statuses.Length
        invariant 0 <= i <= statuses.Length
        invariant forall k | 0 <= k < i :: statuses[k] == ListenerResponseStatus(config.servers[k], false, transport.now)
      {
        statuses[i] := ListenerResponseStatus(config.servers[i], false, transport.now);
        i := i + 1;
      }
    }

    /** One pass of RunListenerJob's loop: receive, act on a full frame,
        report or return a successful punch, then resend and time out. */
    method ListenerStep(statuses: array<ListenerResponseStatus>, exitOnSuccess: bool, timeoutException: bool)
      returns (exit: Option<EndPoint>, thrown: Option<Exception>)
      requires Valid() && isRunning && Tracks(statuses[..], config.servers)
      modifies this`isRunning, this`punchEvents, buffer, tokenBuffer, statuses
      modifies transport`sent, transport`inbox, transport`now, transport`received
      ensures var ctx := ListenerContext(config, transport.unreachable, exitOnSuccess, timeoutException, hasPunchListener);
        var ev := NextEvent(old(transport.inbox), old(transport.now));
        var it := ListenerIteration(ctx, old(statuses[..]), old(tokenBuffer[..]), ev);
        && statuses[..] == it.statuses && tokenBuffer[..] == it.tokenBuffer
        && transport.sent == old(transport.sent) + it.packets
        && punchEvents == old(punchEvents) + it.reported
        && exit == it.exit && thrown == it.thrown
        && transport.inbox == RestOf(old(transport.inbox)) && transport.now == ev.time
        && transport.received == old(transport.received) + [ev]
        && isRunning == !ev.Stop?
    {
      ghost var ev := NextEvent(transport.inbox, transport.now);
      var size, remote, stop, failure := transport.ReceiveFrom(buffer);
      if failure.Some? {
        return None, failure;
      }
      if stop {
        isRunning := false;
      }
      ghost var before := transport.sent;
      exit, thrown := HandleReceived(statuses, size, remote, exitOnSuccess, timeoutException, ev);
      if thrown.Some? || exit.Some? {
        return;
      }
      ghost var handled := transport.sent[|before|..];
      assert transport.sent == before + handled;
      thrown := ResendRegistrations(statuses, timeoutException);
      AppendAssoc(before, handled, transport.sent[|before| + |handled|..]);
    }

    /** The body of the loop between the receive and the resend pass. */
    method HandleReceived(statuses: array<ListenerResponseStatus>, size: int, remote: Option<EndPoint>,
                          exitOnSuccess: bool, ghost timeoutException: bool, ghost ev: Event)
      returns (exit: Option<EndPoint>, thrown: Option<Exception>)
      requires Valid() && Tracks(statuses[..], config.servers)
      requires ev.Datagram? ==> size == Min(|ev.data|, BUFFER_SIZE) && remote == Some(ev.from)
      requires !ev.Datagram? ==> size == -1 && remote == None
      requires !Oversized(ev)
      requires IsFrame(ev) ==> buffer[..] == FrameOf(ev)
      modifies this`punchEvents, buffer, tokenBuffer, statuses, transport`sent
      ensures var ctx := ListenerContext(config, transport.unreachable, exitOnSuccess, timeoutException, hasPunchListener);
        var h := HandleListenerEvent(ctx, old(statuses[..]), old(tokenBuffer[..]), ev);
        && statuses[..] == h.statuses && tokenBuffer[..] == h.tokenBuffer
        && transport.sent == old(transport.sent) + h.packets && thrown == h.thrown
        && (h.thrown.None? && h.success.Some? && exitOnSuccess ==> exit == h.success && punchEvents == old(punchEvents))
        && (!(h.thrown.None? && h.success.Some? && exitOnSuccess) ==> exit == None)
        && (h.thrown.Some? ==> punchEvents == old(punchEvents))
        && (h.thrown.None? && !(h.success.Some? && exitOnSuccess) ==>
              punchEvents == old(punchEvents) + (if h.success.Some? && hasPunchListener then [h.success.value] else []))
    {
      var index := -1;
      if remote.Some? {
        index := FindStatus(statuses, remote.value);
      }
      exit := None;
      thrown := None;
      if size == BUFFER_SIZE {
        if buffer[0] == REGISTERED && remote.value in config.servers {
          statuses[index] := statuses[index].(isWaitingForResponse := false);
        } else {
          var handled, success;
          handled, success, thrown := TryParseListenerPacket(remote.value);
          if thrown.Some? {
            return;
          }
          if handled && success.Some? && exitOnSuccess {
            return success, None;
          } else if handled && success.Some? && hasPunchListener {
            punchEvents := punchEvents + [success.value];
          }
        }
      }
    }

    /** TryParseListenerPacket: a server's ConnectTo makes the listener
        punch the connector it names; a Punch from anyone is answered with
        PunchSuccess and reported. Anything else is not handled. */
    method TryParseListenerPacket(remote: EndPoint) returns (handled: bool, success: Option<EndPoint>, thrown: Option<Exception>)
      requires Valid()
      modifies buffer, tokenBuffer, transport`sent
      ensures var e := ListenerFrameEffect(config, transport.unreachable, old(tokenBuffer[..]), old(buffer[..]), remote);
        && buffer[..] == e.buffer && tokenBuffer[..] == e.tokenBuffer
        && transport.sent == old(transport.sent) + e.packets
        && handled == e.handled && success == e.success && thrown == e.thrown
    {
      if buffer[0] == CONNECT_TO && remote in config.servers {
        handled, thrown := PunchConnector();
        success := None;
      } else if buffer[0] == PUNCH {
        handled, success, thrown := AnswerPunch(remote);
      } else {
        handled, success, thrown := false, None, None;
      }
    }

    /** The ConnectTo branch: copy the token, clear the buffer, punch. */
    method PunchConnector() returns (handled: bool, thrown: Option<Exception>)
      requires Valid() && buffer[0] == CONNECT_TO
      modifies buffer, tokenBuffer, transport`sent
      ensures var frame := old(buffer[..]);
        var size := ConnectToTokenSize(frame);
        && (size > BUFFER_SIZE - 6 ==>
              && !handled && thrown.None?
              && buffer[..] == frame && tokenBuffer[..] == old(tokenBuffer[..]) && transport.sent == old(transport.sent))
        && (size <= BUFFER_SIZE - 6 && (8 + size > BUFFER_SIZE || size > config.tokenBufferSize) ==>
              && !handled && thrown == Some(ArgumentException)
              && buffer[..] == frame && tokenBuffer[..] == old(tokenBuffer[..]) && transport.sent == old(transport.sent))
        && (8 + size <= BUFFER_SIZE && size <= config.tokenBufferSize ==>
              var token := ConnectToToken(frame);
              var b := PunchBurst(PunchFrame(token), ConnectToPeer(frame), config.portPredictions, transport.unreachable);
              && buffer[..] == PunchFrame(token) && tokenBuffer[..] == Overwrite(old(tokenBuffer[..]), 0, token)
              && transport.sent == old(transport.sent) + b.packets
              && handled == b.thrown.None? && thrown == b.thrown)
    {
      ghost var frame := buffer[..];
      var peer := EndPoint(IPv4(buffer[1], buffer[2], buffer[3], buffer[4]), PortOf(buffer[5], buffer[6]));
      var size := buffer[7] as nat;
      if size > BUFFER_SIZE - 6 {
        return false, None;
      }
      var ok := BlockCopy(buffer[..], 8, tokenBuffer, 0, size);
      if !ok {
        return false, Some(ArgumentException);
      }
      assert peer == ConnectToPeer(frame);
      ghost var token := ConnectToToken(frame);
      OverwritePrefix(old(tokenBuffer[..]), token);
      Clear(buffer, 0, BUFFER_SIZE);
      assert buffer[..] == Zeros(BUFFER_SIZE);
      thrown := SendPunches(peer, tokenBuffer[..size]);
      PunchOverZeros(token);
      return thrown.None?, thrown;
    }

    /** The Punch branch: turn the frame into a PunchSuccess and send it
        back to whoever sent it. */
    method AnswerPunch(remote: EndPoint) returns (handled: bool, success: Option<EndPoint>, thrown: Option<Exception>)
      requires Valid()
      modifies buffer, transport`sent
      ensures buffer[..] == EchoFrame(old(buffer[..]))
      ensures transport.sent == old(transport.sent) + [Packet(EchoFrame(old(buffer[..])), remote)]
      ensures remote in transport.unreachable ==> !handled && success.None? && thrown == Some(SocketSendException)
      ensures remote !in transport.unreachable ==> handled && success == Some(remote) && thrown.None?
    {
      ghost var frame := buffer[..];
      buffer[0] := PUNCH_SUCCESS;
      assert buffer[..] == EchoFrame(frame);
      var size := transport.SendTo(buffer, remote);
      if size != BUFFER_SIZE {
        return false, None, Some(SocketSendException);
      }
      return true, Some(remote), None;
    }

    /** ListenForPunches: bind, then run the listener until stopped. */
    method ListenForPunches(listenEndpoint: EndPoint) returns (thrown: Option<Exception>)
      requires Valid()
      modifies this`isRunning, this`punchEvents, buffer, tokenBuffer
      modifies transport`sent, transport`inbox, transport`now, transport`received, transport`boundTo
      ensures var ctx := ListenerContext(config, transport.unreachable, false, false, hasPunchListener);
        var r := ListenerJob(ctx, old(tokenBuffer[..]), old(transport.inbox), old(transport.now), true);
        && transport.boundTo == Some(listenEndpoint)
        && transport.sent == old(transport.sent) + r.packets
        && punchEvents == old(punchEvents) + r.reported
        && thrown == r.thrown
        && tokenBuffer[..] == r.tokenBuffer
        && transport.inbox == r.rest && transport.now == r.now
        && isRunning == (thrown.Some? && r.running)
    {
      transport.Bind(listenEndpoint);
      isRunning := true;
      var endpoint;
      endpoint, thrown := RunListenerJob(false, false);
      if thrown.None? {
        isRunning := false;
      }
    }

    /** ListenForSinglePunch: bind, then run the listener until the first
        punch it answers, which it returns. */
    method ListenForSinglePunch(listenEndpoint: EndPoint) returns (endpoint: Option<EndPoint>, thrown: Option<Exception>)
      requires Valid()
      modifies this`isRunning, this`punchEvents, buffer, tokenBuffer
      modifies transport`sent, transport`inbox, transport`now, transport`received, transport`boundTo
      ensures var ctx := ListenerContext(config, transport.unreachable, true, false, hasPunchListener);
        var r := ListenerJob(ctx, old(tokenBuffer[..]), old(transport.inbox), old(transport.now), true);
        && transport.boundTo == Some(listenEndpoint)
        && transport.sent == old(transport.sent) + r.packets
        && punchEvents == old(punchEvents) + r.reported
        && endpoint == r.exit && thrown == r.thrown
        && tokenBuffer[..] == r.tokenBuffer
        && transport.inbox == r.rest && transport.now == r.now
        && isRunning == (thrown.Some? && r.running)
    {
      transport.Bind(listenEndpoint);
      isRunning := true;
      endpoint, thrown := RunListenerJob(true, false);
      if thrown.None? {
        isRunning := false;
      }
    }

    /** TryPunch: refuse a non-IPv4 address, bind to any port, then run the
        connector session with `token` as the session token. */
    method TryPunch(connectAddress: IPAddress, token: seq<byte>) returns (punched: Option<EndPoint>, thrown: Option<Exception>)
      requires Valid() && |token| == SESSION_TOKEN_LENGTH
      modifies this`isRunning, buffer, tokenBuffer
      modifies transport`sent, transport`inbox, transport`now, transport`received, transport`boundTo
      ensures connectAddress.InterNetworkV6? ==>
        && punched.None? && thrown == Some(ArgumentException)
        && transport.sent == old(transport.sent) && transport.boundTo == old(transport.boundTo)
        && transport.inbox == old(transport.inbox) && isRunning == old(isRunning)
        && transport.now == old(transport.now)
        && buffer[..] == old(buffer[..]) && tokenBuffer[..] == old(tokenBuffer[..])
      ensures connectAddress.InterNetwork? ==>
        var s := ConnectorSession(config, transport.unreachable, connectAddress.v4, token,
                                  old(tokenBuffer[..]), old(transport.inbox), old(transport.now));
        && transport.boundTo == Some(ANY_ENDPOINT)
        && transport.sent == old(transport.sent) + s.packets
        && buffer[..] == s.buffer && tokenBuffer[..] == s.tokenBuffer
        && transport.inbox == s.rest && transport.now == s.now && isRunning == s.running
        && (s.outcome.Normal? ==> punched == s.outcome.value && thrown.None?)
        && (s.outcome.Threw? ==> punched.None? && thrown == Some(s.outcome.exception))
    {
      if connectAddress.InterNetworkV6? {
        return None, Some(ArgumentException);
      }
      transport.Bind(ANY_ENDPOINT);
      isRunning := true;
      var target := connectAddress.v4;
      thrown := SendRegisterRequest(Some(target), token);
      if thrown.Some? {
        return None, thrown;
      }
      ghost var registered := transport.sent[|old(transport.sent)|..];
      assert transport.sent == old(transport.sent) + registered;
      punched, thrown := WaitThenPunch(target, token);
      ghost var rest := transport.sent[|old(transport.sent)| + |registered|..];
      AppendAssoc(old(transport.sent), registered, rest);
    }

    /** The rest of TryPunch once registered: wait for the server's answer,
        check the peer's address, then punch it. */
    method WaitThenPunch(target: IPv4, token: seq<byte>) returns (punched: Option<EndPoint>, thrown: Option<Exception>)
      requires Valid() && |token| == SESSION_TOKEN_LENGTH && isRunning
      requires buffer[..] == RegisterFrame(Some(target), token)
      modifies this`isRunning, buffer, tokenBuffer, transport`sent, transport`inbox, transport`now, transport`received
      ensures var s := AwaitAndPunch(config, transport.unreachable, target, token,
                                     old(tokenBuffer[..]), old(transport.inbox), old(transport.now));
        && transport.sent == old(transport.sent) + s.packets
        && buffer[..] == s.buffer && tokenBuffer[..] == s.tokenBuffer
        && transport.inbox == s.rest && transport.now == s.now && isRunning == s.running
        && (s.outcome.Normal? ==> punched == s.outcome.value && thrown.None?)
        && (s.outcome.Threw? ==> punched.None? && thrown == Some(s.outcome.exception))
    {
      var peer;
      peer, thrown := TryWaitForConnectorRegisterResponse(token, false);
      if thrown.Some? {
        return None, thrown;
      }
      punched, thrown := PunchAnswered(target, token, peer);
    }

    /** TryPunch once the server's answer is in: return false when there is
        no peer or its address is not the target's, else punch it. */
    method PunchAnswered(target: IPv4, token: seq<byte>, peer: Option<EndPoint>) returns (punched: Option<EndPoint>, thrown: Option<Exception>)
      requires Valid() && |token| == SESSION_TOKEN_LENGTH
      modifies this`isRunning, buffer, transport`sent, transport`inbox, transport`now, transport`received
      ensures var w := WaitRun(Normal(peer), old(buffer[..]), old(tokenBuffer[..]), old(transport.inbox), old(isRunning), old(transport.now));
        var s := PunchAfterWait(config, transport.unreachable, target, token, w);
        && transport.sent == old(transport.sent) + s.packets
        && buffer[..] == s.buffer && tokenBuffer[..] == s.tokenBuffer
        && transport.inbox == s.rest && transport.now == s.now && isRunning == s.running
        && (s.outcome.Normal? ==> punched == s.outcome.value && thrown.None?)
        && (s.outcome.Threw? ==> punched.None? && thrown == Some(s.outcome.exception))
    {
      if peer.None? {
        isRunning := false;
        return None, None;
      }
      if config.dropUnknownAddresses && peer.value.address != target {
        return None, None;
      }
      punched, thrown := PunchPeer(peer.value, token);
    }

    /** The end of TryPunch once a peer is known: punch it, wait for its
        PunchSuccess, and clear the running flag unless something threw. */
    method PunchPeer(peer: EndPoint, token: seq<byte>) returns (punched: Option<EndPoint>, thrown: Option<Exception>)
      requires Valid() && |token| == SESSION_TOKEN_LENGTH
      modifies this`isRunning, buffer, transport`sent, transport`inbox, transport`now, transport`received
      ensures var w := WaitRun(Normal(Some(peer)), old(buffer[..]), old(tokenBuffer[..]), old(transport.inbox), old(isRunning), old(transport.now));
        var s := PunchPeerSession(config, transport.unreachable, token, peer, w);
        && transport.sent == old(transport.sent) + s.packets
        && buffer[..] == s.buffer && tokenBuffer[..] == s.tokenBuffer
        && transport.inbox == s.rest && transport.now == s.now && isRunning == s.running
        && (s.outcome.Normal? ==> punched == s.outcome.value && thrown.None?)
        && (s.outcome.Threw? ==> punched.None? && thrown == Some(s.outcome.exception))
    {
      assert token[..ByteCast(|token|)] == token;
      thrown := SendPunches(peer, token);
      if thrown.Some? {
        return None, thrown;
      }
      ghost var burst := transport.sent[|old(transport.sent)|..];
      assert transport.sent == old(transport.sent) + burst;
      punched, thrown := TryCompleteConnectorPunch(peer, token);
      ghost var rest := transport.sent[|old(transport.sent)| + |burst|..];
      AppendAssoc(old(transport.sent), burst, rest);
      if thrown.None? {
        isRunning := false;
      }
    }

    /** TryWaitForConnectorRegisterResponse: receive until a server refuses
        or answers with a ConnectTo carrying our token, or until the response
        timeout, counted from the start of the wait, has passed or the client
        stops; then throw ServerNotReachable when asked to, else return false. */
    method TryWaitForConnectorRegisterResponse(token: seq<byte>, timeoutException: bool)
      returns (peer: Option<EndPoint>, thrown: Option<Exception>)
      requires Valid()
      modifies this`isRunning, buffer, tokenBuffer, transport`inbox, transport`now, transport`received
      ensures var ctx := WaitContext(config.servers, token, config.tokenBufferSize, config.serverRegisterResponseTimeout, timeoutException);
        var r := ConnectorWait(ctx, old(transport.now), old(buffer[..]), old(tokenBuffer[..]),
                               old(transport.inbox), old(transport.now), old(isRunning));
        && buffer[..] == r.buffer && tokenBuffer[..] == r.tokenBuffer
        && transport.inbox == r.rest && transport.now == r.now && isRunning == r.running
        && (r.outcome.Normal? ==> peer == r.outcome.value && thrown.None?)
        && (r.outcome.Threw? ==> peer.None? && thrown == Some(r.outcome.exception))
    {
      var start := transport.now;
      ghost var ctx := WaitContext(config.servers, token, config.tokenBufferSize, config.serverRegisterResponseTimeout, timeoutException);
      ghost var whole := ConnectorWait(ctx, start, buffer[..], tokenBuffer[..], transport.inbox, transport.now, isRunning);
      while true
        invariant Valid()
        invariant whole == ConnectorWait(ctx, start, buffer[..], tokenBuffer[..], transport.inbox, transport.now, isRunning)
        decreases |transport.inbox|
      {
        var v := WaitStep(token);
        if v.Refused? {
          return None, None;
        } else if v.Accepted? {
          return Some(v.peer), None;
        } else if v.Failed? {
          return None, Some(v.e);
        }
        if !(transport.now - start < config.serverRegisterResponseTimeout && isRunning) {
          break;
        }
      }
      if timeoutException {
        return None, Some(ServerNotReachableException);
      }
      return None, None;
    }

    /** One pass of the wait loop's body: receive, then judge. */
    method WaitStep(token: seq<byte>) returns (v: WaitVerdict)
      requires Valid()
      modifies this`isRunning, buffer, tokenBuffer, transport`inbox, transport`now, transport`received
      ensures var ev := NextEvent(old(transport.inbox), old(transport.now));
        && v == ConnectToVerdict(ev, config.servers, token, config.tokenBufferSize)
        && buffer[..] == AfterReceive(old(buffer[..]), ev)
        && tokenBuffer[..] == Overwrite(old(tokenBuffer[..]), 0, ConnectToCopy(ev, config.servers, config.tokenBufferSize))
        && transport.inbox == RestOf(old(transport.inbox)) && transport.now == ev.time
        && transport.received == old(transport.received) + [ev]
        && isRunning == (old(isRunning) && !ev.Stop?)
    {
      ghost var ev := NextEvent(transport.inbox, transport.now);
      var size, remote, stop, failure := transport.ReceiveFrom(buffer);
      if stop {
        isRunning := false;
      }
      if failure.Some? {
        return Failed(failure.value);
      }
      v := JudgeRegisterResponse(size, remote, token, ev);
    }

    /** One receive of the wait loop: a server's Error refuses, a server's
        ConnectTo has its token copied to the token buffer and compared with
        ours; anything else is skipped. */
    method JudgeRegisterResponse(size: int, remote: Option<EndPoint>, token: seq<byte>, ghost ev: Event) returns (v: WaitVerdict)
      requires Valid()
      requires ev.Datagram? ==> size == Min(|ev.data|, BUFFER_SIZE) && remote == Some(ev.from)
      requires !ev.Datagram? ==> size == -1 && remote == None
      requires !Oversized(ev)
      requires IsFrame(ev) ==> buffer[..] == FrameOf(ev)
      modifies tokenBuffer
      ensures v == ConnectToVerdict(ev, config.servers, token, config.tokenBufferSize)
      ensures tokenBuffer[..] == Overwrite(old(tokenBuffer[..]), 0, ConnectToCopy(ev, config.servers, config.tokenBufferSize))
    {
      if size == BUFFER_SIZE && remote.Some? && remote.value in config.servers {
        if buffer[0] == ERROR {
          return Refused;
        } else if buffer[0] == CONNECT_TO {
          ghost var frame := buffer[..];
          var connectTo := EndPoint(IPv4(buffer[1], buffer[2], buffer[3], buffer[4]), PortOf(buffer[5], buffer[6]));
          var tokenSize := buffer[7] as nat;
          if tokenSize > BUFFER_SIZE - 6 {
            return Skipped;
          }
          var ok := BlockCopy(buffer[..], 8, tokenBuffer, 0, tokenSize);
          if !ok {
            return Failed(ArgumentException);
          }
          assert connectTo == ConnectToPeer(frame);
          OverwritePrefix(old(tokenBuffer[..]), ConnectToToken(frame));
          ComparePrefixOnly(tokenBuffer[..], ConnectToToken(frame), token, tokenSize);
          var correct := CompareBytes(tokenBuffer[..], token, tokenSize);
          match correct
          case Threw(e) => return Failed(e);
          case Normal(same) => return if same then Accepted(connectTo) else Skipped;
        }
      }
      return Skipped;
    }

    /** TryCompleteConnectorPunch: receive until the peer's PunchSuccess
        arrives, punching back any listener Punch that comes from a port
        outside the predicted window, or until the punch response timeout
        has passed or the client stops; then return false. */
    method TryCompleteConnectorPunch(punchEndpoint: EndPoint, token: seq<byte>)
      returns (punched: Option<EndPoint>, thrown: Option<Exception>)
      requires Valid()
      modifies this`isRunning, buffer, transport`sent, transport`inbox, transport`now, transport`received
      ensures var ctx := PunchContext(punchEndpoint, config.portPredictions, token, tokenBuffer[..],
                                      config.punchResponseTimeout, transport.unreachable);
        var r := ConnectorPunch(ctx, old(transport.now), old(buffer[..]), old(transport.inbox), old(transport.now), old(isRunning));
        && buffer[..] == r.buffer && transport.sent == old(transport.sent) + r.packets
        && transport.inbox == r.rest && transport.now == r.now && isRunning == r.running
        && (r.outcome.Normal? ==> punched == r.outcome.value && thrown.None?)
        && (r.outcome.Threw? ==> punched.None? && thrown == Some(r.outcome.exception))
    {
      var start := transport.now;
      ghost var ctx := PunchContext(punchEndpoint, config.portPredictions, token, tokenBuffer[..],
                                    config.punchResponseTimeout, transport.unreachable);
      ghost var whole := ConnectorPunch(ctx, start, buffer[..], transport.inbox, transport.now, isRunning);
      ghost var done: seq<Packet> := [];
      while true
        invariant Valid() && tokenBuffer[..] == ctx.tokenBuffer
        invariant transport.sent == old(transport.sent) + done
        invariant whole == AfterSends(done, ConnectorPunch(ctx, start, buffer[..], transport.inbox, transport.now, isRunning))
        decreases |transport.inbox|
      {
        ghost var done0 := done;
        ghost var buffer0, inbox0, now0, running0 := buffer[..], transport.inbox, transport.now, isRunning;
        var v, failed := PunchStep(punchEndpoint, token);
        PunchUnfold(ctx, start, buffer0, inbox0, now0, running0, v);
        ghost var sent := transport.sent[|old(transport.sent)| + |done0|..];
        AppendAssoc(old(transport.sent), done0, sent);
        done := done + sent;
        if v.Succeeded? || v.Broken? || failed || !(transport.now - start < config.punchResponseTimeout && isRunning) {
          assert whole.buffer == buffer[..] && whole.rest == transport.inbox && whole.now == transport.now
                 && whole.running == isRunning && transport.sent == old(transport.sent) + whole.packets;
        }
        if v.Succeeded? {
          return Some(v.from), None;
        } else if v.Broken? {
          return None, Some(v.e);
        } else if failed {
          return None, Some(SocketSendException);
        }
        if !(transport.now - start < config.punchResponseTimeout && isRunning) {
          break;
        }
        AfterSendsStep(done0, sent, ConnectorPunch(ctx, start, buffer[..], transport.inbox, transport.now, isRunning));
      }
      return None, None;
    }

    /** One pass of the punch loop's body: receive, judge, and punch back
        when the verdict asks for it. */
    method PunchStep(target: EndPoint, token: seq<byte>) returns (v: PunchVerdict, failed: bool)
      requires Valid()
      modifies this`isRunning, buffer, transport`sent, transport`inbox, transport`now, transport`received
      ensures var ev := NextEvent(old(transport.inbox), old(transport.now));
        && v == PunchReplyVerdict(ev, target, config.portPredictions, token, tokenBuffer[..])
        && buffer[..] == AfterReceive(old(buffer[..]), ev)
        && transport.inbox == RestOf(old(transport.inbox)) && transport.now == ev.time
        && transport.received == old(transport.received) + [ev]
        && isRunning == (old(isRunning) && !ev.Stop?)
        && (v.Repunch? ==> transport.sent == old(transport.sent) + [Packet(buffer[..], v.to)])
        && (!v.Repunch? ==> transport.sent == old(transport.sent))
        && failed == (v.Repunch? && v.to in transport.unreachable)
    {
      ghost var ev := NextEvent(transport.inbox, transport.now);
      var size, remote, stop, failure := transport.ReceiveFrom(buffer);
      if stop {
        isRunning := false;
      }
      failed := false;
      if failure.Some? {
        return Broken(failure.value), false;
      }
      v := JudgePunchReply(size, remote, target, token, ev);
      if v.Repunch? {
        var sendSize := transport.SendTo(buffer, v.to);
        failed := sendSize != BUFFER_SIZE;
      }
    }

    /** One receive of the punch loop: a Punch or PunchSuccess from the
        target's address is checked for the token's length and bytes. */
    method JudgePunchReply(size: int, remote: Option<EndPoint>, target: EndPoint, token: seq<byte>, ghost ev: Event)
      returns (v: PunchVerdict)
      requires Valid()
      requires ev.Datagram? ==> size == Min(|ev.data|, BUFFER_SIZE) && remote == Some(ev.from)
      requires !ev.Datagram? ==> size == -1 && remote == None
      requires !Oversized(ev)
      requires IsFrame(ev) ==> buffer[..] == FrameOf(ev)
      ensures v == PunchReplyVerdict(ev, target, config.portPredictions, token, tokenBuffer[..])
    {
      if size == BUFFER_SIZE && remote.Some? && remote.value.address == target.address {
        var count := ByteCast(|token|);
        if buffer[0] == PUNCH {
          if buffer[1] == count {
            var correct := CompareBytes(buffer[2..], token, count as nat);
            match correct
            case Threw(e) => return Broken(e);
            case Normal(same) =>
              if same {
                var pinged := HasPingedPort(target.port, remote.value.port);
                if !pinged {
                  return Repunch(EndPoint(target.address, remote.value.port));
                }
              }
          }
        } else if buffer[0] == PUNCH_SUCCESS {
          if buffer[1] == count {
            var correct := CompareBytes(buffer[2..], tokenBuffer[..], count as nat);
            match correct
            case Threw(e) => return Broken(e);
            case Normal(same) =>
              if same {
                return Succeeded(remote.value);
              }
          }
        }
      }
      return Quiet;
    }
  }

  /** ResendPass on a non-empty sequence, one status at a time. */
  lemma ResendPassUnfold(statuses: seq<ListenerResponseStatus>, now: int, interval: int, timeout: int,
                         timeoutException: bool, broadcast: Sends)
    requires statuses != []
    ensures var due := ResendDue(statuses[0], now, interval);
      var s := Refresh(statuses[0], now, interval);
      var sends := if due then broadcast else Sends([], None);
      var rest := ResendPass(statuses[1..], now, interval, timeout, timeoutException, broadcast);
      ResendPass(statuses, now, interval, timeout, timeoutException, broadcast)
      == if sends.thrown.Some? then Pass(statuses, sends.packets, due, sends.thrown)
         else if ResponseOverdue(s, now, timeout) && timeoutException then
           Pass([s] + statuses[1..], sends.packets, due, Some(ServerNotReachableException))
         else Pass([s] + rest.statuses, sends.packets + rest.packets, due || rest.resent, rest.thrown)
  {
  }

  /** The facts of one turn of the resend and timeout loop on the first of
      `rest`: whether it was due, what it sent, the status it left and what
      was thrown. */
  predicate ResendTurnOf(rest: seq<ListenerResponseStatus>, now: int, interval: int, timeout: int,
                         timeoutException: bool, broadcast: Sends,
                         x: ListenerResponseStatus, sent: seq<Packet>, due: bool, thrown: Option<Exception>)
  {
    && rest != []
    && due == ResendDue(rest[0], now, interval)
    && sent == (if due then broadcast.packets else [])
    && if due && broadcast.thrown.Some? then x == rest[0] && thrown == broadcast.thrown
       else
         && x == Refresh(rest[0], now, interval)
         && thrown == if ResponseOverdue(x, now, timeout) && timeoutException then Some(ServerNotReachableException) else None
  }

  /** One turn on status i moves the pass on: a throw ends it with the
      statuses as they stand (`current`), otherwise what is left is the pass
      over the statuses after i. */
  lemma ResendTurn(initial: seq<ListenerResponseStatus>, i: nat, prefix: seq<ListenerResponseStatus>, packets: seq<Packet>,
                   resent: bool, now: int, interval: int, timeout: int, timeoutException: bool, broadcast: Sends,
                   x: ListenerResponseStatus, sent: seq<Packet>, due: bool, thrown: Option<Exception>,
                   current: seq<ListenerResponseStatus>)
    requires i < |initial| && ResendTurnOf(initial[i..], now, interval, timeout, timeoutException, broadcast, x, sent, due, thrown)
    requires current == prefix + [x] + initial[i..][1..]
    ensures var before := Glue(prefix, packets, resent, ResendPass(initial[i..], now, interval, timeout, timeoutException, broadcast));
      && (thrown.Some? ==> before == Pass(current, packets + sent, resent || due, thrown))
      && (thrown.None? ==>
            && current == prefix + [x] + initial[i + 1..]
            && before == Glue(prefix + [x], packets + sent, resent || due,
                              ResendPass(initial[i + 1..], now, interval, timeout, timeoutException, broadcast)))
  {
    var rest := initial[i..];
    assert rest[1..] == initial[i + 1..];
    ResendPassUnfold(rest, now, interval, timeout, timeoutException, broadcast);
    if due && broadcast.thrown.Some? {
      assert rest == [x] + rest[1..];
    }
    if thrown.Some? {
      GlueStop(prefix, packets, resent, x, rest[1..], sent, due, thrown);
    } else {
      GlueStep(prefix, packets, resent, x, sent, due, ResendPass(rest[1..], now, interval, timeout, timeoutException, broadcast));
    }
  }

  /** A resend pass over the statuses still to do, after `prefix` has been
      done with `packets` sent. */
  function Glue(prefix: seq<ListenerResponseStatus>, packets: seq<Packet>, resent: bool, rest: Pass): Pass
  {
    Pass(prefix + rest.statuses, packets + rest.packets, resent || rest.resent, rest.thrown)
  }

  lemma GlueStep(prefix: seq<ListenerResponseStatus>, packets: seq<Packet>, resent: bool,
                 s: ListenerResponseStatus, sent: seq<Packet>, due: bool, rest: Pass)
    ensures Glue(prefix, packets, resent, Pass([s] + rest.statuses, sent + rest.packets, due || rest.resent, rest.thrown))
         == Glue(prefix + [s], packets + sent, resent || due, rest)
  {
    assert prefix + ([s] + rest.statuses) == (prefix + [s]) + rest.statuses;
    assert packets + (sent + rest.packets) == (packets + sent) + rest.packets;
  }

  /** With nothing left to do, the glued pass is what was done. */
  lemma GlueDone(prefix: seq<ListenerResponseStatus>, packets: seq<Packet>, resent: bool, rest: seq<ListenerResponseStatus>,
                 now: int, interval: int, timeout: int, timeoutException: bool, broadcast: Sends)
    requires rest == []
    ensures Glue(prefix, packets, resent, ResendPass(rest, now, interval, timeout, timeoutException, broadcast))
         == Pass(prefix + rest, packets, resent, None)
  {
    assert prefix + [] == prefix;
  }

  lemma GlueStop(prefix: seq<ListenerResponseStatus>, packets: seq<Packet>, resent: bool,
                 s: ListenerResponseStatus, rest: seq<ListenerResponseStatus>, sent: seq<Packet>, due: bool, thrown: Option<Exception>)
    ensures Glue(prefix, packets, resent, Pass([s] + rest, sent, due, thrown))
         == Pass(prefix + [s] + rest, packets + sent, resent || due, thrown)
  {
    assert prefix + ([s] + rest) == prefix + [s] + rest;
  }

  /** A listener run after `packets` were sent and `reported` handed out. */
  function Extend(packets: seq<Packet>, reported: seq<EndPoint>, r: ListenerRun): ListenerRun
  {
    r.(packets := packets + r.packets, reported := reported + r.reported)
  }

  lemma ExtendStep(packets: seq<Packet>, reported: seq<EndPoint>, morePackets: seq<Packet>, moreReported: seq<EndPoint>, r: ListenerRun)
    ensures Extend(packets, reported, Extend(morePackets, moreReported, r)) == Extend(packets + morePackets, reported + moreReported, r)
  {
    assert packets + (morePackets + r.packets) == packets + morePackets + r.packets;
    assert reported + (moreReported + r.reported) == reported + moreReported + r.reported;
  }

  /** A punch run after `packets` were sent. */
  function AfterSends(packets: seq<Packet>, r: PunchRun): PunchRun
  {
    r.(packets := packets + r.packets)
  }

  /** ConnectorPunch one event at a time, given that event's verdict. */
  lemma PunchUnfold(ctx: PunchContext, start: int, buffer: seq<byte>, inbox: seq<Event>, now: int, running: bool, v: PunchVerdict)
    requires v == PunchReplyVerdict(NextEvent(inbox, now), ctx.target, ctx.predictions, ctx.token, ctx.tokenBuffer)
    ensures var ev := NextEvent(inbox, now);
      var b := AfterReceive(buffer, ev);
      var running' := running && !ev.Stop?;
      var sent := if v.Repunch? then [Packet(b, v.to)] else [];
      ConnectorPunch(ctx, start, buffer, inbox, now, running)
      == if v.Succeeded? then PunchRun(Normal(Some(v.from)), [], b, RestOf(inbox), running', ev.time)
         else if v.Broken? then PunchRun(Threw(v.e), [], b, RestOf(inbox), running', ev.time)
         else if v.Repunch? && v.to in ctx.unreachable then PunchRun(Threw(SocketSendException), sent, b, RestOf(inbox), running', ev.time)
         else if inbox != [] && ev.time - start < ctx.timeout && running' then
           AfterSends(sent, ConnectorPunch(ctx, start, b, RestOf(inbox), ev.time, running'))
         else PunchRun(Normal(None), sent, b, RestOf(inbox), running', ev.time)
  {
  }

  lemma AfterSendsStep(packets: seq<Packet>, more: seq<Packet>, r: PunchRun)
    ensures AfterSends(packets, AfterSends(more, r)) == AfterSends(packets + more, r)
  {
    assert packets + (more + r.packets) == packets + more + r.packets;
  }

  /** RunListener while running, one event at a time. */
  lemma RunListenerUnfold(ctx: ListenerContext, statuses: seq<ListenerResponseStatus>, tokenBuffer: seq<byte>,
                          inbox: seq<Event>, now: int)
    requires Tracks(statuses, ctx.config.servers) && |tokenBuffer| == ctx.config.tokenBufferSize
    ensures var ev := NextEvent(inbox, now);
      var it := ListenerIteration(ctx, statuses, tokenBuffer, ev);
      var r := RunListener(ctx, statuses, tokenBuffer, inbox, now, true);
      if it.thrown.Some? || it.exit.Some? then
        r == ListenerRun(it.packets, it.reported, it.exit, it.thrown, it.tokenBuffer, RestOf(inbox), !ev.Stop?, ev.time)
      else
        r == Extend(it.packets, it.reported, RunListener(ctx, it.statuses, it.tokenBuffer, RestOf(inbox), ev.time, !ev.Stop?))
  {
  }

  lemma AppendAssoc<T>(a: seq<T>, b: seq<T>, c: seq<T>)
    ensures a + b + c == a + (b + c)
  {
  }

  lemma UpdateAtSplit<T>(prefix: seq<T>, rest: seq<T>, x: T)
    requires rest != []
    ensures (prefix + rest)[|prefix| := x] == prefix + [x] + rest[1..]
  {
  }

  lemma OverwritePrefix(s: seq<byte>, part: seq<byte>)
    requires |part| <= |s|
    ensures Overwrite(s, 0, part)[..|part|] == part
  {
  }

  /** SendPunches over a cleared buffer writes exactly the Punch frame. */
  lemma PunchOverZeros(token: seq<byte>)
    requires 2 + |token| <= BUFFER_SIZE
    ensures var n := ByteCast(|token|) as nat;
      n == |token| && PunchHeader(token[..n]) + Zeros(BUFFER_SIZE)[2 + n..] == PunchFrame(token)
  {
    var n := ByteCast(|token|) as nat;
    assert n == |token|;
    assert Zeros(BUFFER_SIZE)[2 + n..] == Zeros(BUFFER_SIZE - 2 - n);
  }
}
