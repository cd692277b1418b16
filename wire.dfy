/** The wire format the rendezvous server and the clients share: one fixed
    64-byte frame per datagram, byte 0 the message type, IPv4 endpoints with
    little-endian ports, and the field layouts each side writes and reads.
    Also the two .NET buffer primitives the code relies on, Buffer.BlockCopy
    and Array.Clear, written out with their bounds checks. */
module Wire {

  newtype byte = x: int | 0 <= x < 256

  datatype Option<+T> = None | Some(value: T)

  /** Size of every frame (the server's literal buffer size; the clients'
      BUFFER_SIZE has the same value). */
  const BUFFER_SIZE: nat := 64

  // Message-type discriminants, in the order of the MessageType enum.
  const REGISTER: byte := 0
  const REGISTERED: byte := 1
  const CONNECT_TO: byte := 2
  const ERROR: byte := 3
  const PUNCH: byte := 4
  const PUNCH_SUCCESS: byte := 5

  /** The only ErrorType value. */
  const CLIENT_NOT_FOUND: byte := 0

  /** A connector writes at most this many as its declared token length. */
  const MAX_TOKEN_LENGTH: nat := 32

  datatype IPv4 = IPv4(a: byte, b: byte, c: byte, d: byte)
  {
    /** IPAddress.GetAddressBytes of an IPv4 address. */
    function Bytes(): seq<byte>
    {
      [a, b, c, d]
    }
  }

  /** The address whose four bytes start at `offset`. */
  function IPv4At(s: seq<byte>, offset: nat): IPv4
    requires offset + 4 <= |s|
  {
    IPv4(s[offset], s[offset + 1], s[offset + 2], s[offset + 3])
  }

  /** An IPEndPoint port: constructing an endpoint outside this range throws. */
  type Port = p: int | 0 <= p <= 65535

  const MAX_PORT: int := 65535

  datatype EndPoint = EndPoint(address: IPv4, port: Port)

  /** IPAddress.Any with port 0: the connector binds an ephemeral port. */
  const ANY_ENDPOINT: EndPoint := EndPoint(IPv4(0, 0, 0, 0), 0)

  /** An address handed to the connector, of either address family. */
  datatype IPAddress = InterNetwork(v4: IPv4) | InterNetworkV6(bytes: seq<byte>)

  function LowByte(p: Port): byte
  {
    (p % 256) as byte
  }

  function HighByte(p: Port): byte
  {
    (p / 256) as byte
  }

  /** `(ushort)(lo | hi << 8)`. */
  function PortOf(lo: byte, hi: byte): Port
  {
    lo as int + 256 * hi as int
  }

  function Min(x: int, y: int): int
  {
    if x <= y then x else y
  }

  function Zeros(n: nat): (z: seq<byte>)
    ensures |z| == n
    ensures forall i | 0 <= i < n :: z[i] == 0
  {
    seq(n, _ => 0)
  }

  /** `s` with the bytes from `offset` on replaced by `part`. */
  function Overwrite(s: seq<byte>, offset: nat, part: seq<byte>): (r: seq<byte>)
    requires offset + |part| <= |s|
    ensures |r| == |s|
  {
    s[..offset] + part + s[offset + |part|..]
  }

  // ----- Frames as the two sides write them -----

  /** The listener's Register frame: flags 2, everything else zero. */
  function ListenerRegisterFrame(): (f: seq<byte>)
    ensures |f| == BUFFER_SIZE
  {
    [REGISTER, 2] + Zeros(62)
  }

  /** `(byte)Math.Min(length, 32)`. */
  function DeclaredTokenLength(length: nat): byte
  {
    Min(length, MAX_TOKEN_LENGTH as int) as byte
  }

  /** The connector's Register frame: flags 1, target address at bytes 2-5,
      capped token length at byte 6, the whole token from byte 7. */
  function ConnectorRegisterFrame(target: IPv4, token: seq<byte>): (f: seq<byte>)
    requires 7 + |token| <= BUFFER_SIZE
    ensures |f| == BUFFER_SIZE
  {
    [REGISTER, 1] + target.Bytes() + [DeclaredTokenLength(|token|)] + token + Zeros(57 - |token|)
  }

  /** Bytes 0-7 of a ConnectTo frame. */
  function ConnectToHeader(peer: EndPoint, tokenSize: byte): (h: seq<byte>)
    ensures |h| == 8
  {
    [CONNECT_TO] + peer.address.Bytes() + [LowByte(peer.port), HighByte(peer.port), tokenSize]
  }

  /** A ConnectTo frame; `padding` is whatever the buffer held after the token. */
  function ConnectToFrame(peer: EndPoint, token: seq<byte>, padding: seq<byte>): (f: seq<byte>)
    requires 8 + |token| <= BUFFER_SIZE && |padding| == BUFFER_SIZE - 8 - |token|
    ensures |f| == BUFFER_SIZE
  {
    ConnectToHeader(peer, |token| as byte) + token + padding
  }

  function ErrorFrame(code: byte): (f: seq<byte>)
    ensures |f| == BUFFER_SIZE
  {
    [ERROR, code] + Zeros(62)
  }

  /** Bytes 0 .. 2+|token| of a Punch frame. */
  function PunchHeader(token: seq<byte>): (h: seq<byte>)
    requires |token| < 256
    ensures |h| == 2 + |token|
  {
    [PUNCH, |token| as byte] + token
  }

  // ----- Fields as the two sides read them -----

  datatype Flags = Flags(isConnector: bool, isListener: bool)

  /** `(flags & 1) == 1` and `((flags >> 1) & 1) == 1`. */
  function DecodeFlags(flags: byte): Flags
  {
    Flags(flags as int % 2 == 1, (flags as int / 2) % 2 == 1)
  }

  function RegisterTarget(f: seq<byte>): IPv4
    requires |f| == BUFFER_SIZE
  {
    IPv4At(f, 2)
  }

  function RegisterTokenSize(f: seq<byte>): nat
    requires |f| == BUFFER_SIZE
  {
    f[6] as nat
  }

  function RegisterToken(f: seq<byte>): seq<byte>
    requires |f| == BUFFER_SIZE && 7 + RegisterTokenSize(f) <= BUFFER_SIZE
  {
    f[7..7 + RegisterTokenSize(f)]
  }

  function ConnectToPeer(f: seq<byte>): EndPoint
    requires |f| == BUFFER_SIZE
  {
    EndPoint(IPv4At(f, 1), PortOf(f[5], f[6]))
  }

  function ConnectToTokenSize(f: seq<byte>): nat
    requires |f| == BUFFER_SIZE
  {
    f[7] as nat
  }

  function ConnectToToken(f: seq<byte>): seq<byte>
    requires |f| == BUFFER_SIZE && 8 + ConnectToTokenSize(f) <= BUFFER_SIZE
  {
    f[8..8 + ConnectToTokenSize(f)]
  }

  function PunchTokenSize(f: seq<byte>): nat
    requires |f| == BUFFER_SIZE
  {
    f[1] as nat
  }

  function PunchToken(f: seq<byte>): seq<byte>
    requires |f| == BUFFER_SIZE && 2 + PunchTokenSize(f) <= BUFFER_SIZE
  {
    f[2..2 + PunchTokenSize(f)]
  }

  // ----- Round trips between writer and reader -----

  lemma PortRoundTrip(p: Port)
    ensures PortOf(LowByte(p), HighByte(p)) == p
  {
  }

  /** The flag byte decodes bit 0 as isConnector and bit 1 as isListener;
      the higher bits are ignored. */
  lemma FlagBits(flags: byte)
    ensures DecodeFlags(flags).isConnector <==> flags as int % 2 == 1
    ensures DecodeFlags(flags).isListener <==> flags as int % 4 >= 2
  {
  }

  /** What the server reads back from the listener's Register frame. */
  lemma ListenerRegisterRoundTrip()
    ensures ListenerRegisterFrame()[0] == REGISTER
    ensures DecodeFlags(ListenerRegisterFrame()[1]) == Flags(false, true)
  {
  }

  /** What the server reads back from a connector's Register frame: the
      target, and the token cut to its declared length min(|token|, 32). */
  lemma {:induction false} ConnectorRegisterRoundTrip(target: IPv4, token: seq<byte>)
    requires 7 + |token| <= BUFFER_SIZE
    ensures var f := ConnectorRegisterFrame(target, token);
      && f[0] == REGISTER
      && DecodeFlags(f[1]) == Flags(true, false)
      && RegisterTarget(f) == target
      && RegisterTokenSize(f) == Min(|token|, MAX_TOKEN_LENGTH)
      && RegisterToken(f) == token[..Min(|token|, MAX_TOKEN_LENGTH)]
  {
    var f := ConnectorRegisterFrame(target, token);
    var n := Min(|token|, MAX_TOKEN_LENGTH);
    assert f[7..7 + |token|] == token;
    assert f[7..7 + n] == f[7..7 + |token|][..n];
  }

  /** What a client reads back from a ConnectTo frame the server wrote. */
  lemma {:induction false} ConnectToRoundTrip(peer: EndPoint, token: seq<byte>, padding: seq<byte>)
    requires 8 + |token| <= BUFFER_SIZE && |padding| == BUFFER_SIZE - 8 - |token|
    ensures var f := ConnectToFrame(peer, token, padding);
      && f[0] == CONNECT_TO
      && ConnectToPeer(f) == peer
      && ConnectToTokenSize(f) == |token|
      && ConnectToToken(f) == token
      && f[8 + |token|..] == padding
  {
    var f := ConnectToFrame(peer, token, padding);
    assert f[8..8 + |token|] == token;
    PortRoundTrip(peer.port);
  }

  /** What the receiver reads back from a Punch frame. */
  lemma {:induction false} PunchRoundTrip(token: seq<byte>, rest: seq<byte>)
    requires 2 + |token| + |rest| == BUFFER_SIZE
    ensures var f := PunchHeader(token) + rest;
      f[0] == PUNCH && PunchTokenSize(f) == |token| && PunchToken(f) == token
  {
    var f := PunchHeader(token) + rest;
    assert f[2..2 + |token|] == token;
  }

  // ----- Buffer primitives -----

  /** Buffer.BlockCopy(src, srcOffset, dst, dstOffset, count): throws (here:
      returns false and changes nothing) unless both ranges are in bounds. */
  method BlockCopy(src: seq<byte>, srcOffset: nat, dst: array<byte>, dstOffset: nat, count: nat) returns (ok: bool)
    modifies dst
    ensures ok <==> srcOffset + count <= |src| && dstOffset + count <= dst.Length
    ensures ok ==> dst[..] == Overwrite(old(dst[..]), dstOffset, src[srcOffset..srcOffset + count])
    ensures !ok ==> dst[..] == old(dst[..])
  {
    if srcOffset + count > |src| || dstOffset + count > dst.Length {
      return false;
    }
    var i := 0;
    while i < count
      invariant 0 <= i <= count
      invariant forall k | 0 <= k < dst.Length ::
        dst[k] == (if dstOffset <= k < dstOffset + i then src[srcOffset + k - dstOffset] else old(dst[k]))
    {
      dst[dstOffset + i] := src[srcOffset + i];
      i := i + 1;
    }
    ghost var want := Overwrite(old(dst[..]), dstOffset, src[srcOffset..srcOffset + count]);
    assert forall k | 0 <= k < dst.Length :: dst[..][k] == want[k];
    return true;
  }

  /** Array.Clear(dst, offset, count) for an in-range segment. */
  method Clear(dst: array<byte>, offset: nat, count: nat)
    requires offset + count <= dst.Length
    modifies dst
    ensures dst[..] == Overwrite(old(dst[..]), offset, Zeros(count))
  {
    var i := 0;
    while i < count
      invariant 0 <= i <= count
      invariant forall k | 0 <= k < dst.Length ::
        dst[k] == (if offset <= k < offset + i then 0 else old(dst[k]))
    {
      dst[offset + i] := 0;
      i := i + 1;
    }
    ghost var want := Overwrite(old(dst[..]), offset, Zeros(count));
    assert forall k | 0 <= k < dst.Length :: dst[..][k] == want[k];
  }
}
