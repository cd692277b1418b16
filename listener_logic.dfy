/** The listener role as functions of the received events: what one frame
    makes TryParseListenerPacket do, the per-server registration status and
    its resend rule, and the whole RunListenerJob loop. */
module ListenerLogic {
  import opened Wire
  import opened Transport
  import opened ClientFrames

  // ----- One frame (TryParseListenerPacket) -----

  datatype ListenerVerdict =
    | Ignored                                   // returns false, nothing changes
    | Burst(peer: EndPoint, token: seq<byte>)   // a server's ConnectTo: punch the peer
    | Echo                                      // a Punch: answer it with PunchSuccess
    | CopyFault                                 // the token copy throws ArgumentException

  /** What the listener does with a 64-byte frame from `from`. */
  function ParseListenerFrame(frame: seq<byte>, from: EndPoint, servers: seq<EndPoint>, tokenBufferSize: nat): ListenerVerdict
    requires |frame| == BUFFER_SIZE
  {
    if frame[0] == CONNECT_TO && from in servers then
      var size := ConnectToTokenSize(frame);
      if size > BUFFER_SIZE - 6 then Ignored
      else if 8 + size > BUFFER_SIZE || size > tokenBufferSize then CopyFault
      else Burst(ConnectToPeer(frame), ConnectToToken(frame))
    else if frame[0] == PUNCH then Echo
    else Ignored
  }

  /** A ConnectTo is acted on only when it comes from a server, and one
      declaring more than 58 token bytes is ignored. */
  lemma ConnectToOnlyFromServers(frame: seq<byte>, from: EndPoint, servers: seq<EndPoint>, tokenBufferSize: nat)
    requires |frame| == BUFFER_SIZE && frame[0] == CONNECT_TO
    ensures from !in servers ==> ParseListenerFrame(frame, from, servers, tokenBufferSize) == Ignored
    ensures ConnectToTokenSize(frame) > BUFFER_SIZE - 6 ==> ParseListenerFrame(frame, from, servers, tokenBufferSize) == Ignored
    ensures ParseListenerFrame(frame, from, servers, tokenBufferSize).Burst? <==>
      from in servers && ConnectToTokenSize(frame) <= BUFFER_SIZE - 8 && ConnectToTokenSize(frame) <= tokenBufferSize
  {
  }

  /** A server's ConnectTo bursts at the endpoint and with the token the
      frame carries. */
  lemma {:induction false} BurstCarriesDecodedPeer(peer: EndPoint, token: seq<byte>, padding: seq<byte>, from: EndPoint, servers: seq<EndPoint>, tokenBufferSize: nat)
    requires 8 + |token| <= BUFFER_SIZE && |padding| == BUFFER_SIZE - 8 - |token|
    requires from in servers && |token| <= tokenBufferSize
    ensures ParseListenerFrame(ConnectToFrame(peer, token, padding), from, servers, tokenBufferSize) == Burst(peer, token)
  {
    ConnectToRoundTrip(peer, token, padding);
  }

  /** Any Punch frame, from any endpoint, is answered: no token is checked. */
  lemma EchoesEveryPunch(frame: seq<byte>, from: EndPoint, servers: seq<EndPoint>, tokenBufferSize: nat)
    requires |frame| == BUFFER_SIZE && frame[0] == PUNCH
    ensures ParseListenerFrame(frame, from, servers, tokenBufferSize) == Echo
  {
  }

  /** The PunchSuccess answer: the received frame with byte 0 changed. */
  function EchoFrame(frame: seq<byte>): (f: seq<byte>)
    requires |frame| == BUFFER_SIZE
    ensures |f| == BUFFER_SIZE
  {
    [PUNCH_SUCCESS] + frame[1..]
  }

  lemma EchoChangesOnlyType(frame: seq<byte>)
    requires |frame| == BUFFER_SIZE
    ensures EchoFrame(frame)[0] == PUNCH_SUCCESS
    ensures forall i | 1 <= i < BUFFER_SIZE :: EchoFrame(frame)[i] == frame[i]
  {
  }

  // ----- Registration status -----

  datatype ListenerResponseStatus = ListenerResponseStatus(endPoint: EndPoint, isWaitingForResponse: bool, lastRegisterTime: int)

  /** The status array follows the server array: entry i is server i's. */
  ghost predicate Tracks(statuses: seq<ListenerResponseStatus>, servers: seq<EndPoint>)
  {
    |statuses| == |servers| && forall i | 0 <= i < |servers| :: statuses[i].endPoint == servers[i]
  }

  function InitialStatuses(servers: seq<EndPoint>, now: int): (s: seq<ListenerResponseStatus>)
    ensures Tracks(s, servers)
    ensures forall i | 0 <= i < |s| :: !s[i].isWaitingForResponse && s[i].lastRegisterTime == now
  {
    seq(|servers|, i requires 0 <= i < |servers| => ListenerResponseStatus(servers[i], false, now))
  }

  /** The index of the first status for `ep`, or -1. */
  function IndexOfStatus(statuses: seq<ListenerResponseStatus>, ep: EndPoint): (r: int)
    ensures -1 <= r < |statuses|
    ensures r == -1 <==> forall i | 0 <= i < |statuses| :: statuses[i].endPoint != ep
    ensures r >= 0 ==> statuses[r].endPoint == ep && forall i | 0 <= i < r :: statuses[i].endPoint != ep
    decreases |statuses|
  {
    if statuses == [] then -1
    else if statuses[0].endPoint == ep then 0
    else
      var r := IndexOfStatus(statuses[1..], ep);
      if r == -1 then -1 else r + 1
  }

  /** A Registered frame from server `from` clears that server's waiting
      flag; every other status is unchanged. */
  function Acknowledge(statuses: seq<ListenerResponseStatus>, servers: seq<EndPoint>, from: EndPoint): (r: seq<ListenerResponseStatus>)
    requires Tracks(statuses, servers) && from in servers
    ensures Tracks(r, servers)
    ensures var k := IndexOfStatus(statuses, from);
      && 0 <= k < |statuses| && servers[k] == from
      && r[k] == statuses[k].(isWaitingForResponse := false)
      && forall i | 0 <= i < |r| && i != k :: r[i] == statuses[i]
  {
    var k := IndexOfStatus(statuses, from);
    statuses[k := statuses[k].(isWaitingForResponse := false)]
  }

  /** A status is due for a new Register when it is not waiting and more
      than the register interval has passed since its last one. */
  predicate ResendDue(s: ListenerResponseStatus, now: int, interval: int)
  {
    !s.isWaitingForResponse && now - s.lastRegisterTime > interval
  }

  /** A waiting status whose response timeout has passed. */
  predicate ResponseOverdue(s: ListenerResponseStatus, now: int, timeout: int)
  {
    s.isWaitingForResponse && now - s.lastRegisterTime > timeout
  }

  /** The status after the resend rule: a due status is stamped now and
      marked waiting, any other is left alone. */
  function Refresh(s: ListenerResponseStatus, now: int, interval: int): (r: ListenerResponseStatus)
    ensures r.endPoint == s.endPoint
    ensures ResendDue(s, now, interval) ==> r.isWaitingForResponse && r.lastRegisterTime == now
    ensures !ResendDue(s, now, interval) ==> r == s
  {
    if ResendDue(s, now, interval) then s.(isWaitingForResponse := true, lastRegisterTime := now) else s
  }

  /** The outcome of the resend and timeout loop over the statuses: the
      statuses as the loop left them, the Registers it sent, whether it
      wrote a Register into the buffer, and the exception that ended it. */
  datatype Pass = Pass(statuses: seq<ListenerResponseStatus>, packets: seq<Packet>, resent: bool, thrown: Option<Exception>)

  /** The resend and timeout loop: each due status triggers a Register to
      every server (`broadcast`) and is refreshed, then an overdue status
      throws when asked to. */
  function ResendPass(statuses: seq<ListenerResponseStatus>, now: int, interval: int, timeout: int,
                      timeoutException: bool, broadcast: Sends): (p: Pass)
    ensures |p.statuses| == |statuses|
    ensures p.thrown.Some? ==>
      p.thrown == broadcast.thrown || (timeoutException && p.thrown == Some(ServerNotReachableException))
    decreases |statuses|
  {
    if statuses == [] then Pass([], [], false, None)
    else
      var due := ResendDue(statuses[0], now, interval);
      var s := Refresh(statuses[0], now, interval);
      var sends := if due then broadcast else Sends([], None);
      if sends.thrown.Some? then Pass(statuses, sends.packets, due, sends.thrown)
      else if ResponseOverdue(s, now, timeout) && timeoutException then
        Pass([s] + statuses[1..], sends.packets, due, Some(ServerNotReachableException))
      else
        var rest := ResendPass(statuses[1..], now, interval, timeout, timeoutException, broadcast);
        Pass([s] + rest.statuses, sends.packets + rest.packets, due || rest.resent, rest.thrown)
  }

  /** The pass keeps every status's server, and when nothing throws it has
      applied the resend rule to each status. */
  lemma {:induction false} ResendPassRefreshes(statuses: seq<ListenerResponseStatus>, now: int, interval: int, timeout: int,
                                               timeoutException: bool, broadcast: Sends)
    ensures var p := ResendPass(statuses, now, interval, timeout, timeoutException, broadcast);
      && (forall i | 0 <= i < |statuses| :: p.statuses[i].endPoint == statuses[i].endPoint)
      && (p.thrown.None? ==> forall i | 0 <= i < |statuses| :: p.statuses[i] == Refresh(statuses[i], now, interval))
    decreases |statuses|
  {
    if statuses != [] {
      ResendPassRefreshes(statuses[1..], now, interval, timeout, timeoutException, broadcast);
      var p := ResendPass(statuses, now, interval, timeout, timeoutException, broadcast);
      var rest := ResendPass(statuses[1..], now, interval, timeout, timeoutException, broadcast);
      forall i | 1 <= i < |statuses|
        ensures p.statuses[i].endPoint == statuses[i].endPoint
      {
        assert statuses[i] == statuses[1..][i - 1];
      }
      if p.thrown.None? {
        forall i | 1 <= i < |statuses|
          ensures p.statuses[i] == Refresh(statuses[i], now, interval)
        {
          assert statuses[i] == statuses[1..][i - 1];
        }
      }
    }
  }

  /** A status waiting for a Registered frame is never due: a pass that
      does not throw leaves it exactly as it was, so it triggers no second
      Register until a Registered frame clears it. */
  lemma {:induction false} WaitingStatusNotResent(statuses: seq<ListenerResponseStatus>, now: int, interval: int, timeout: int,
                                                  timeoutException: bool, broadcast: Sends, i: nat)
    requires i < |statuses| && statuses[i].isWaitingForResponse
    ensures var p := ResendPass(statuses, now, interval, timeout, timeoutException, broadcast);
      p.thrown.None? ==> p.statuses[i] == statuses[i]
  {
    ResendPassRefreshes(statuses, now, interval, timeout, timeoutException, broadcast);
  }

  /** Without due statuses nothing is sent. */
  lemma {:induction false} NothingDueNothingSent(statuses: seq<ListenerResponseStatus>, now: int, interval: int, timeout: int,
                                                 timeoutException: bool, broadcast: Sends)
    requires forall i | 0 <= i < |statuses| :: !ResendDue(statuses[i], now, interval)
    ensures ResendPass(statuses, now, interval, timeout, timeoutException, broadcast).packets == []
    decreases |statuses|
  {
    if statuses != [] {
      NothingDueNothingSent(statuses[1..], now, interval, timeout, timeoutException, broadcast);
    }
  }

  // ----- The listener loop (RunListenerJob) -----

  datatype ListenerContext = ListenerContext(
    config: Config,
    unreachable: set<EndPoint>,
    exitOnSuccessfulPunch: bool,
    timeoutException: bool,
    hasPunchListener: bool)

  /** The Register every resend sends to every server. */
  function ListenerBroadcast(ctx: ListenerContext): Sends
  {
    RegisterBroadcast(None, [], ctx.config.servers, ctx.unreachable)
  }

  /** What TryParseListenerPacket does with the 64-byte frame in the
      buffer: the buffers it leaves, what it sends, the connector it
      reports, and the exception that escapes it. */
  datatype FrameEffect = FrameEffect(buffer: seq<byte>, tokenBuffer: seq<byte>, packets: seq<Packet>,
                                     handled: bool, success: Option<EndPoint>, thrown: Option<Exception>)

  function ListenerFrameEffect(config: Config, unreachable: set<EndPoint>, tokenBuffer: seq<byte>,
                               frame: seq<byte>, from: EndPoint): (e: FrameEffect)
    requires |frame| == BUFFER_SIZE && |tokenBuffer| == config.tokenBufferSize
    ensures |e.buffer| == BUFFER_SIZE && |e.tokenBuffer| == |tokenBuffer|
    ensures e.success.Some? ==> e.success == Some(from) && e.thrown.None? && e.packets == [Packet(EchoFrame(frame), from)]
    ensures frame[0] == PUNCH ==>
      && e.packets == [Packet(EchoFrame(frame), from)]
      && e.handled == (from !in unreachable)
      && e.success == (if from in unreachable then None else Some(from))
      && e.thrown == (if from in unreachable then Some(SocketSendException) else None)
    ensures e.thrown != Some(ServerNotReachableException)
  {
    match ParseListenerFrame(frame, from, config.servers, config.tokenBufferSize)
    case Ignored => FrameEffect(frame, tokenBuffer, [], false, None, None)
    case CopyFault => FrameEffect(frame, tokenBuffer, [], false, None, Some(ArgumentException))
    case Burst(peer, token) =>
      var b := PunchBurst(PunchFrame(token), peer, config.portPredictions, unreachable);
      FrameEffect(PunchFrame(token), Overwrite(tokenBuffer, 0, token), b.packets, b.thrown.None?, None, b.thrown)
    case Echo =>
      var packets := [Packet(EchoFrame(frame), from)];
      if from in unreachable then FrameEffect(EchoFrame(frame), tokenBuffer, packets, false, None, Some(SocketSendException))
      else FrameEffect(EchoFrame(frame), tokenBuffer, packets, true, Some(from), None)
  }

  /** The effect of one received event, before the resend pass. */
  datatype Handled = Handled(statuses: seq<ListenerResponseStatus>, tokenBuffer: seq<byte>, packets: seq<Packet>,
                             success: Option<EndPoint>, thrown: Option<Exception>)

  function HandleListenerEvent(ctx: ListenerContext, statuses: seq<ListenerResponseStatus>, tokenBuffer: seq<byte>, ev: Event): (h: Handled)
    requires Tracks(statuses, ctx.config.servers) && |tokenBuffer| == ctx.config.tokenBufferSize
    ensures Tracks(h.statuses, ctx.config.servers) && |h.tokenBuffer| == |tokenBuffer|
    ensures h.success.Some? ==>
      IsFrame(ev) && h.success == Some(ev.from) && h.thrown.None? && h.packets == [Packet(EchoFrame(FrameOf(ev)), ev.from)]
    ensures h.thrown != Some(ServerNotReachableException)
  {
    var servers := ctx.config.servers;
    if Oversized(ev) then Handled(statuses, tokenBuffer, [], None, Some(SocketException))
    else if !IsFrame(ev) then Handled(statuses, tokenBuffer, [], None, None)
    else
      var frame := FrameOf(ev);
      if frame[0] == REGISTERED && ev.from in servers then
        Handled(Acknowledge(statuses, servers, ev.from), tokenBuffer, [], None, None)
      else
        var e := ListenerFrameEffect(ctx.config, ctx.unreachable, tokenBuffer, frame, ev.from);
        Handled(statuses, e.tokenBuffer, e.packets, if e.handled then e.success else None, e.thrown)
  }

  /** One pass of the loop body: handle the received event, report or
      return a successful punch, then run the resend pass. */
  datatype Iteration = Iteration(statuses: seq<ListenerResponseStatus>, tokenBuffer: seq<byte>, packets: seq<Packet>,
                                 reported: seq<EndPoint>, exit: Option<EndPoint>, thrown: Option<Exception>)

  function ListenerIteration(ctx: ListenerContext, statuses: seq<ListenerResponseStatus>, tokenBuffer: seq<byte>, ev: Event): (it: Iteration)
    requires Tracks(statuses, ctx.config.servers) && |tokenBuffer| == ctx.config.tokenBufferSize
    ensures Tracks(it.statuses, ctx.config.servers) && |it.tokenBuffer| == |tokenBuffer|
    ensures it.exit.Some? ==>
      && ctx.exitOnSuccessfulPunch && it.thrown.None? && IsFrame(ev) && it.exit == Some(ev.from)
      && it.packets == [Packet(EchoFrame(FrameOf(ev)), ev.from)]
    ensures it.thrown == Some(ServerNotReachableException) ==> ctx.timeoutException
    ensures it.reported != [] ==> ctx.hasPunchListener
  {
    var h := HandleListenerEvent(ctx, statuses, tokenBuffer, ev);
    if h.thrown.Some? then
      Iteration(h.statuses, h.tokenBuffer, h.packets, [], None, h.thrown)
    else if h.success.Some? && ctx.exitOnSuccessfulPunch then
      Iteration(h.statuses, h.tokenBuffer, h.packets, [], h.success, None)
    else
      var reported := if h.success.Some? && ctx.hasPunchListener then [h.success.value] else [];
      var pass := ResendPass(h.statuses, ev.time, ctx.config.serverRegisterInterval,
                             ctx.config.serverRegisterResponseTimeout, ctx.timeoutException, ListenerBroadcast(ctx));
      ResendPassRefreshes(h.statuses, ev.time, ctx.config.serverRegisterInterval,
                          ctx.config.serverRegisterResponseTimeout, ctx.timeoutException, ListenerBroadcast(ctx));
      Iteration(pass.statuses, h.tokenBuffer, h.packets + pass.packets, reported, None, pass.thrown)
  }

  /** Where the loop ended and what it did on the way. */
  datatype ListenerRun = ListenerRun(
    packets: seq<Packet>,
    reported: seq<EndPoint>,
    exit: Option<EndPoint>,
    thrown: Option<Exception>,
    tokenBuffer: seq<byte>,
    rest: seq<Event>,
    running: bool,
    now: int)

  /** `while (_isRunning) { receive; handle; resend pass }`, ending early on
      an exception or, when asked to, on a successful punch. */
  function RunListener(ctx: ListenerContext, statuses: seq<ListenerResponseStatus>, tokenBuffer: seq<byte>,
                       inbox: seq<Event>, now: int, running: bool): (r: ListenerRun)
    requires Tracks(statuses, ctx.config.servers) && |tokenBuffer| == ctx.config.tokenBufferSize
    decreases |inbox|, if running then 1 else 0
  {
    if !running then ListenerRun([], [], None, None, tokenBuffer, inbox, false, now)
    else
      var ev := NextEvent(inbox, now);
      var it := ListenerIteration(ctx, statuses, tokenBuffer, ev);
      if it.thrown.Some? || it.exit.Some? then
        ListenerRun(it.packets, it.reported, it.exit, it.thrown, it.tokenBuffer, RestOf(inbox), !ev.Stop?, ev.time)
      else
        var r := RunListener(ctx, it.statuses, it.tokenBuffer, RestOf(inbox), ev.time, !ev.Stop?);
        r.(packets := it.packets + r.packets, reported := it.reported + r.reported)
  }

  /** How a run of the loop may end: it returns an endpoint only when asked
      to exit on a punch, and that endpoint was just sent a PunchSuccess
      answer; it throws ServerNotReachable only when asked to, reports only
      to a punch listener, and otherwise ends only once the running flag is
      off. */
  predicate EndsWell(ctx: ListenerContext, r: ListenerRun)
  {
    && (r.exit.Some? ==> ctx.exitOnSuccessfulPunch && r.thrown.None?)
    && (r.exit.Some? ==> |r.packets| > 0 && r.packets[|r.packets| - 1].to == r.exit.value
                         && |r.packets[|r.packets| - 1].frame| == BUFFER_SIZE
                         && r.packets[|r.packets| - 1].frame[0] == PUNCH_SUCCESS)
    && (r.thrown == Some(ServerNotReachableException) ==> ctx.timeoutException)
    && (r.exit.None? && r.thrown.None? ==> !r.running)
    && (r.reported != [] ==> ctx.hasPunchListener)
  }

  /** Putting an iteration that neither exits nor throws in front of a run
      keeps how it ends. */
  lemma EndsWellAfter(ctx: ListenerContext, packets: seq<Packet>, reported: seq<EndPoint>, r: ListenerRun)
    requires EndsWell(ctx, r) && (reported != [] ==> ctx.hasPunchListener)
    ensures EndsWell(ctx, r.(packets := packets + r.packets, reported := reported + r.reported))
  {
    if r.exit.Some? {
      var all := packets + r.packets;
      assert all[|all| - 1] == r.packets[|r.packets| - 1];
    }
  }

  /** Every run of the loop ends well. */
  lemma {:induction false} RunListenerEnds(ctx: ListenerContext, statuses: seq<ListenerResponseStatus>, tokenBuffer: seq<byte>,
                                           inbox: seq<Event>, now: int, running: bool)
    requires Tracks(statuses, ctx.config.servers) && |tokenBuffer| == ctx.config.tokenBufferSize
    ensures EndsWell(ctx, RunListener(ctx, statuses, tokenBuffer, inbox, now, running))
    decreases |inbox|, if running then 1 else 0
  {
    if running {
      var ev := NextEvent(inbox, now);
      var it := ListenerIteration(ctx, statuses, tokenBuffer, ev);
      if it.thrown.None? && it.exit.None? {
        RunListenerEnds(ctx, it.statuses, it.tokenBuffer, RestOf(inbox), ev.time, !ev.Stop?);
        EndsWellAfter(ctx, it.packets, it.reported,
                      RunListener(ctx, it.statuses, it.tokenBuffer, RestOf(inbox), ev.time, !ev.Stop?));
      }
    }
  }

  /** RunListenerJob: one Register to every server, the statuses all
      stamped now and not waiting, then the loop. */
  function ListenerJob(ctx: ListenerContext, tokenBuffer: seq<byte>, inbox: seq<Event>, now: int, running: bool): (r: ListenerRun)
    requires |tokenBuffer| == ctx.config.tokenBufferSize
  {
    var b := ListenerBroadcast(ctx);
    if b.thrown.Some? then ListenerRun(b.packets, [], None, b.thrown, tokenBuffer, inbox, running, now)
    else
      var r := RunListener(ctx, InitialStatuses(ctx.config.servers, now), tokenBuffer, inbox, now, running);
      r.(packets := b.packets + r.packets)
  }
}
