/** The frames and records that travel between the components, and the constants of
    the transport. Integers are unbounded; the widths the wire imposes are stated by
    the codec. */
module Frames {

  type byte = x: int | 0 <= x < 256

  datatype Option<+T> = None | Some(value: T)

  // Sizes, in bytes.
  const MAX_DATAGRAM_SIZE: nat := 1472
  const SAFE_DATAGRAM_SIZE: nat := 1200
  const MIN_CWND: nat := 2 * MAX_DATAGRAM_SIZE
  const INITIAL_CWND: nat := 10 * MAX_DATAGRAM_SIZE
  const STREAM_CHUNK_OVERHEAD: nat := 100
  const STREAM_FRAME_HEADER: nat := 12
  const MIN_HEADER: nat := 18
  const MAX_CID_LENGTH: nat := 20

  // Durations, in nanoseconds.
  const MILLISECOND: int := 1_000_000
  const SECOND: int := 1_000_000_000
  const MAX_ACK_DELAY: int := 25 * MILLISECOND

  const TWO_32: nat := 0x1_0000_0000

  /** `offset` is the position of `data` in the stream's own byte sequence. */
  datatype StreamFrame = StreamFrame(isFin: bool, isSyn: bool, offset: nat, data: seq<byte>) {
    function End(): nat { offset + |data| }
  }

  datatype AckRange = AckRange(gap: nat, length: nat)

  datatype AckFrame = AckFrame(largestAcked: nat, ackDelay: nat, firstLength: nat, ranges: seq<AckRange>)

  datatype Frame =
    | Padding
    | Ping
    | Ack(ack: AckFrame)
    | Stream(stream: StreamFrame)
    | WindowUpdate(windowSize: nat)
    | MaxData(maxData: nat)
    | ResetStream(resetCode: nat)
    | MaxStreams(streamCount: nat)
    | MtuProbe(probeSize: int)
    | PathChallenge(challenge: seq<byte>)
    | PathResponse(response: seq<byte>)
    | ConnectionClose(closeCode: nat, frameType: nat, reason: seq<byte>)
    | StopSending(stopStream: nat, stopCode: nat)
    | DataBlocked(blockedAt: nat)
    | StreamDataBlocked(blockedStream: nat, streamBlockedAt: nat)
    | NewConnectionId(cidSequence: nat, retirePriorTo: nat, cid: seq<byte>, token: seq<byte>)
    | RetireConnectionId(retired: nat)

  /** The encoded length of a frame, type byte included. */
  function FrameLen(f: Frame): nat {
    match f
    case Padding => 1
    case Ping => 1
    case Ack(a) => 12 + 5 * |a.ranges|
    case Stream(s) => STREAM_FRAME_HEADER + |s.data|
    case WindowUpdate(_) => 5
    case MaxData(_) => 9
    case ResetStream(_) => 5
    case MaxStreams(_) => 5
    case MtuProbe(n) => if n < 1 then 1 else n
    case PathChallenge(_) => 9
    case PathResponse(_) => 9
    case ConnectionClose(_, _, reason) => 11 + |reason|
    case StopSending(_, _) => 9
    case DataBlocked(_) => 9
    case StreamDataBlocked(_, _) => 13
    case NewConnectionId(_, _, cid, _) => 18 + |cid| + 16
    case RetireConnectionId(_) => 9
  }

  function Zeros(n: nat): (d: seq<byte>)
    ensures |d| == n
  {
    seq(n, i => 0)
  }

  function Min(a: int, b: int): int { if a <= b then a else b }

  function Max(a: int, b: int): int { if a >= b then a else b }
}
