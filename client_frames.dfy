/** What both client roles share: the configuration, the frames a client
    writes, the send loops that deliver a frame to a list of endpoints, and
    the byte-by-byte token comparison the connector uses. */
module ClientFrames {
  import opened Wire
  import opened Transport

  /** The client's tunables and the server endpoints it registers with. */
  datatype Config = Config(
    servers: seq<EndPoint>,
    portPredictions: int,
    punchResponseTimeout: int,
    serverRegisterResponseTimeout: int,
    serverRegisterInterval: int,
    dropUnknownAddresses: bool,
    tokenBufferSize: nat)

  /** The property defaults, in milliseconds where they are durations. */
  function DefaultConfig(servers: seq<EndPoint>, tokenBufferSize: nat): Config
  {
    Config(servers, 12, 8000, 8000, 60000, true, tokenBufferSize)
  }

  /** The length of the session token TryPunch generates. */
  const SESSION_TOKEN_LENGTH: nat := 32

  /** `(byte)n`: the low eight bits. */
  function ByteCast(n: nat): byte
  {
    (n % 256) as byte
  }

  // ----- Sending one frame to several endpoints -----

  /** The SendTo calls a send loop made, and the exception that ended it. */
  datatype Sends = Sends(packets: seq<Packet>, thrown: Option<Exception>)

  /** Send `frame` to each target in order; the first short send throws
      SocketSendException, after that send was attempted. */
  function SendAll(frame: seq<byte>, targets: seq<EndPoint>, unreachable: set<EndPoint>): (r: Sends)
    ensures r.thrown == None || r.thrown == Some(SocketSendException)
    decreases |targets|
  {
    if targets == [] then Sends([], None)
    else if targets[0] in unreachable then Sends([Packet(frame, targets[0])], Some(SocketSendException))
    else
      var rest := SendAll(frame, targets[1..], unreachable);
      Sends([Packet(frame, targets[0])] + rest.packets, rest.thrown)
  }

  /** Sending from target i on is sending to target i, then, when it accepts
      the frame, from target i + 1 on; `done` is what was sent before. */
  lemma SendAllFrom(frame: seq<byte>, targets: seq<EndPoint>, i: nat, unreachable: set<EndPoint>, done: seq<Packet>)
    requires i < |targets|
    ensures var rest := SendAll(frame, targets[i..], unreachable);
      var next := SendAll(frame, targets[i + 1..], unreachable);
      && (targets[i] in unreachable ==> rest == Sends([Packet(frame, targets[i])], Some(SocketSendException)))
      && (targets[i] !in unreachable ==>
            Sends(done + rest.packets, rest.thrown) == Sends(done + [Packet(frame, targets[i])] + next.packets, next.thrown))
  {
    assert targets[i..][0] == targets[i] && targets[i..][1..] == targets[i + 1..];
    var next := SendAll(frame, targets[i + 1..], unreachable);
    assert done + ([Packet(frame, targets[i])] + next.packets) == done + [Packet(frame, targets[i])] + next.packets;
  }

  /** When every target accepts the frame, each gets it once, in order. */
  lemma {:induction false} SendAllDelivers(frame: seq<byte>, targets: seq<EndPoint>, unreachable: set<EndPoint>)
    requires forall i | 0 <= i < |targets| :: targets[i] !in unreachable
    ensures var r := SendAll(frame, targets, unreachable);
      && r.thrown == None && |r.packets| == |targets|
      && forall i | 0 <= i < |targets| :: r.packets[i] == Packet(frame, targets[i])
    decreases |targets|
  {
    if targets != [] {
      SendAllDelivers(frame, targets[1..], unreachable);
    }
  }

  /** A failing target ends the loop: the targets before it and the failing
      one were sent the frame, none after it was, and the loop throws. */
  lemma {:induction false} SendAllStopsAtFailure(frame: seq<byte>, targets: seq<EndPoint>, unreachable: set<EndPoint>, k: nat)
    requires k < |targets| && targets[k] in unreachable
    requires forall i | 0 <= i < k :: targets[i] !in unreachable
    ensures var r := SendAll(frame, targets, unreachable);
      && r.thrown == Some(SocketSendException) && |r.packets| == k + 1
      && forall i | 0 <= i <= k :: r.packets[i] == Packet(frame, targets[i])
    decreases k
  {
    if k > 0 {
      SendAllStopsAtFailure(frame, targets[1..], unreachable, k - 1);
    }
  }

  // ----- Register -----

  /** The Register frame SendRegisterRequest writes: a connector's when a
      target address is given, otherwise the listener's. */
  function RegisterFrame(connect: Option<IPv4>, token: seq<byte>): (f: seq<byte>)
    requires connect.Some? ==> 7 + |token| <= BUFFER_SIZE
    ensures |f| == BUFFER_SIZE
  {
    if connect.Some? then ConnectorRegisterFrame(connect.value, token) else ListenerRegisterFrame()
  }

  /** A connector token too long for the frame makes the copy throw before
      anything is sent. */
  predicate RegisterFits(connect: Option<IPv4>, token: seq<byte>)
  {
    connect.Some? ==> 7 + |token| <= BUFFER_SIZE
  }

  /** SendRegisterRequest: write the frame, then send it to every server. */
  function RegisterBroadcast(connect: Option<IPv4>, token: seq<byte>, servers: seq<EndPoint>, unreachable: set<EndPoint>): Sends
  {
    if !RegisterFits(connect, token) then Sends([], Some(ArgumentException))
    else SendAll(RegisterFrame(connect, token), servers, unreachable)
  }

  /** The listener's Register frame is flags 2 and zeros elsewhere, and the
      connector's carries flags 1, the target, min(length, 32) and the token.
      Every server receives it once, in order. */
  lemma {:induction false} RegisterReachesEachServer(connect: Option<IPv4>, token: seq<byte>, servers: seq<EndPoint>, unreachable: set<EndPoint>)
    requires RegisterFits(connect, token)
    requires forall i | 0 <= i < |servers| :: servers[i] !in unreachable
    ensures var r := RegisterBroadcast(connect, token, servers, unreachable);
      && r.thrown == None && |r.packets| == |servers|
      && (forall i | 0 <= i < |servers| :: r.packets[i].to == servers[i])
      && forall p | p in r.packets ::
           && |p.frame| == BUFFER_SIZE && p.frame[0] == REGISTER
           && (connect.None? ==> p.frame[1] == 2 && forall j | 2 <= j < BUFFER_SIZE :: p.frame[j] == 0)
           && (connect.Some? ==>
                 && p.frame[1] == 1 && RegisterTarget(p.frame) == connect.value
                 && RegisterTokenSize(p.frame) == Min(|token|, MAX_TOKEN_LENGTH)
                 && p.frame[7..7 + |token|] == token)
  {
    var frame := RegisterFrame(connect, token);
    SendAllDelivers(frame, servers, unreachable);
    if connect.Some? {
      ConnectorRegisterRoundTrip(connect.value, token);
      assert frame[7..7 + |token|] == token;
    }
    var r := RegisterBroadcast(connect, token, servers, unreachable);
    forall p | p in r.packets
      ensures p.frame == frame
    {
      var i :| 0 <= i < |r.packets| && r.packets[i] == p;
    }
  }

  // ----- Punch -----

  /** The frame SendPunches leaves in a cleared buffer. */
  function PunchFrame(token: seq<byte>): (f: seq<byte>)
    requires 2 + |token| <= BUFFER_SIZE
    ensures |f| == BUFFER_SIZE
  {
    PunchHeader(token) + Zeros(BUFFER_SIZE - 2 - |token|)
  }

  /** How many of the predicted ports P, P+1, ... exist before one passes
      65535. */
  function ValidPunchCount(port: Port, predictions: int): (n: nat)
    ensures n <= MAX_PORT + 1 - port
    ensures predictions > 0 ==> n <= predictions
  {
    if predictions <= 0 then 0 else Min(predictions, MAX_PORT + 1 - port)
  }

  /** The endpoints (address, P+i) for i below n. */
  function PunchTargets(ep: EndPoint, n: nat): (t: seq<EndPoint>)
    requires ep.port + n <= MAX_PORT + 1
    ensures |t| == n
    ensures forall i | 0 <= i < n :: t[i] == EndPoint(ep.address, ep.port + i)
  {
    seq(n, i requires 0 <= i < n => EndPoint(ep.address, ep.port + i))
  }

  /** SendPunches' loop: one frame to each predicted port in increasing
      order; a short send throws SocketSendException, and building the
      endpoint for a port above 65535 throws ArgumentOutOfRangeException. */
  function PunchBurst(frame: seq<byte>, ep: EndPoint, predictions: int, unreachable: set<EndPoint>): (r: Sends)
    ensures r.thrown in {None, Some(SocketSendException), Some(ArgumentOutOfRangeException)}
  {
    var n := ValidPunchCount(ep.port, predictions);
    var r := SendAll(frame, PunchTargets(ep, n), unreachable);
    if r.thrown.None? && n < predictions then Sends(r.packets, Some(ArgumentOutOfRangeException)) else r
  }

  /** A burst whose ports all exist sends exactly `predictions` frames, to
      P, P+1, ... in that order. */
  lemma {:induction false} PunchBurstInOrder(frame: seq<byte>, ep: EndPoint, predictions: nat, unreachable: set<EndPoint>)
    requires ep.port + predictions <= MAX_PORT + 1
    requires forall p | ep.port <= p < ep.port + predictions :: EndPoint(ep.address, p) !in unreachable
    ensures var r := PunchBurst(frame, ep, predictions, unreachable);
      && r.thrown == None && |r.packets| == predictions
      && forall i | 0 <= i < predictions :: r.packets[i] == Packet(frame, EndPoint(ep.address, ep.port + i))
  {
    var targets := PunchTargets(ep, predictions);
    forall i | 0 <= i < predictions
      ensures targets[i] !in unreachable
    {
      assert targets[i] == EndPoint(ep.address, ep.port + i);
    }
    SendAllDelivers(frame, targets, unreachable);
  }

  /** A burst that runs past port 65535 sends to every port up to 65535 and
      then throws. */
  lemma {:induction false} PunchBurstOverflows(frame: seq<byte>, ep: EndPoint, predictions: int, unreachable: set<EndPoint>)
    requires ep.port + predictions > MAX_PORT + 1
    requires forall p | ep.port <= p <= MAX_PORT :: EndPoint(ep.address, p) !in unreachable
    ensures var r := PunchBurst(frame, ep, predictions, unreachable);
      && r.thrown == Some(ArgumentOutOfRangeException)
      && |r.packets| == MAX_PORT + 1 - ep.port
      && forall i | 0 <= i < |r.packets| :: r.packets[i] == Packet(frame, EndPoint(ep.address, ep.port + i))
  {
    var n := MAX_PORT + 1 - ep.port;
    var targets := PunchTargets(ep, n);
    forall i | 0 <= i < n
      ensures targets[i] !in unreachable
    {
      assert targets[i] == EndPoint(ep.address, ep.port + i);
    }
    SendAllDelivers(frame, targets, unreachable);
  }

  // ----- Token comparison -----

  /** The comparison loop `for i < n: if a[i] != b[i] then mismatch`, from
      index i on: an index past either array throws. */
  function CompareFrom(a: seq<byte>, b: seq<byte>, n: nat, i: nat): Outcome<bool>
    decreases n - i
  {
    if i >= n then Normal(true)
    else if i >= |a| || i >= |b| then Threw(IndexOutOfRangeException)
    else if a[i] != b[i] then Normal(false)
    else CompareFrom(a, b, n, i + 1)
  }

  function Compare(a: seq<byte>, b: seq<byte>, n: nat): Outcome<bool>
  {
    CompareFrom(a, b, n, 0)
  }

  lemma {:induction false} CompareFromMeaning(a: seq<byte>, b: seq<byte>, n: nat, i: nat)
    requires i <= n && i <= |a| && i <= |b| && a[..i] == b[..i]
    ensures var m := Min(n, Min(|a|, |b|));
      CompareFrom(a, b, n, i)
      == if a[..m] != b[..m] then Normal(false)
         else if m == n then Normal(true)
         else Threw(IndexOutOfRangeException)
    decreases n - i
  {
    var m := Min(n, Min(|a|, |b|));
    if i >= n || i >= |a| || i >= |b| {
      assert i == m;
    } else if a[i] != b[i] {
      assert a[..m][i] != b[..m][i];
    } else {
      assert a[..i + 1] == a[..i] + [a[i]] && b[..i + 1] == b[..i] + [b[i]];
      CompareFromMeaning(a, b, n, i + 1);
    }
  }

  /** With m the shortest of n, |a| and |b|: a mismatch within the first m
      bytes is false; otherwise the comparison is true when both hold n bytes
      and throws IndexOutOfRange when one is shorter than n. */
  lemma CompareMeaning(a: seq<byte>, b: seq<byte>, n: nat)
    ensures var m := Min(n, Min(|a|, |b|));
      Compare(a, b, n)
      == if a[..m] != b[..m] then Normal(false)
         else if m == n then Normal(true)
         else Threw(IndexOutOfRangeException)
  {
    CompareFromMeaning(a, b, n, 0);
  }

  /** The comparison reads only the first n bytes of either side. */
  lemma ComparePrefixOnly(a: seq<byte>, a': seq<byte>, b: seq<byte>, n: nat)
    requires n <= |a| && n <= |a'| && a[..n] == a'[..n]
    ensures Compare(a, b, n) == Compare(a', b, n)
  {
    CompareMeaning(a, b, n);
    CompareMeaning(a', b, n);
    var m := Min(n, |b|);
    assert a[..m] == a[..n][..m] && a'[..m] == a'[..n][..m];
  }
}
