/** The wire format: every frame and packet as bytes, big-endian, and back. */
module Codec {
  import opened Frames

  datatype Error = TooShort | UnknownFrame | BadCidLength

  datatype Result<+T> = Ok(value: T) | Err(error: Error)

  datatype Packet = Packet(
    version: nat, dcid: seq<byte>, scid: seq<byte>, sequence: nat, dstStream: nat, srcStream: nat, frames: seq<Frame>)

  const TOKEN_LENGTH: nat := 16

  // ----- Big-endian integers -----

  function Pow(width: nat): (p: nat)
    ensures p > 0
  {
    if width == 0 then 1 else 256 * Pow(width - 1)
  }

  /** The low `width` bytes of `n`. */
  function BE(n: nat, width: nat): (b: seq<byte>)
    ensures |b| == width
  {
    if width == 0 then [] else BE(n / 256, width - 1) + [n % 256]
  }

  function UnBE(b: seq<byte>): (n: nat) {
    if b == [] then 0 else UnBE(b[..|b| - 1]) * 256 + b[|b| - 1]
  }

  lemma {:induction false} UnBEBounded(b: seq<byte>)
    ensures UnBE(b) < Pow(|b|)
  {
    if b != [] { UnBEBounded(b[..|b| - 1]); }
  }

  /** A number that fits its field survives it. */
  lemma {:induction false} BERoundTrip(n: nat, width: nat)
    requires n < Pow(width)
    ensures UnBE(BE(n, width)) == n
  {
    if width > 0 {
      BERoundTrip(n / 256, width - 1);
      assert BE(n, width)[..width - 1] == BE(n / 256, width - 1);
    }
  }

  /** And the bytes of a field are those of the number read from it. */
  lemma {:induction false} UnBERoundTrip(b: seq<byte>)
    ensures BE(UnBE(b), |b|) == b
  {
    if b != [] {
      var init, low := b[..|b| - 1], b[|b| - 1];
      UnBERoundTrip(init);
      var n := UnBE(init);
      assert (n * 256 + low) / 256 == n && (n * 256 + low) % 256 == low;
      assert b == init + [low];
    }
  }

  lemma Widths()
    ensures Pow(1) == 256 && Pow(2) == 65536 && Pow(4) == TWO_32 && Pow(8) == TWO_32 * TWO_32
  {
    assert Pow(0) == 1 && Pow(1) == 256 && Pow(2) == 65536 && Pow(3) == 16777216 && Pow(4) == TWO_32;
    assert Pow(5) == 256 * TWO_32 && Pow(6) == 65536 * TWO_32 && Pow(7) == 16777216 * TWO_32;
  }

  // ----- Encoding -----

  /** A byte string copied into a field of `n` bytes. */
  function Fixed(b: seq<byte>, n: nat): (r: seq<byte>)
    ensures |r| == n && (|b| == n ==> r == b)
  {
    if |b| >= n then b[..n] else b + Zeros(n - |b|)
  }

  function EncodeRanges(ranges: seq<AckRange>): (b: seq<byte>)
    ensures |b| == 5 * |ranges|
    decreases |ranges|
  {
    if ranges == [] then []
    else [ranges[0].gap % 256] + BE(ranges[0].length, 4) + EncodeRanges(ranges[1..])
  }

  function Flags(f: StreamFrame): byte { (if f.isFin then 1 else 0) + (if f.isSyn then 2 else 0) }

  function EncodeAck(a: AckFrame): (b: seq<byte>)
    ensures |b| == 12 + 5 * |a.ranges|
  {
    [2] + BE(a.largestAcked, 4) + BE(a.ackDelay, 2) + [|a.ranges| % 256] + BE(a.firstLength, 4) + EncodeRanges(a.ranges)
  }

  function EncodeNewCid(n: nat, retire: nat, cid: seq<byte>, token: seq<byte>): (b: seq<byte>)
    ensures |b| == 18 + |cid| + TOKEN_LENGTH
  {
    [16] + BE(n, 8) + BE(retire, 8) + [|cid| % 256] + cid + Fixed(token, TOKEN_LENGTH)
  }

  /** A frame's bytes: as many as its length says. */
  function Encode(f: Frame): (b: seq<byte>)
    ensures |b| == FrameLen(f) >= 1
  {
    match f
    case Padding => [0]
    case Ping => [1]
    case Ack(a) => EncodeAck(a)
    case Stream(s) => [3] + [Flags(s)] + BE(s.offset, 8) + BE(|s.data|, 2) + s.data
    case WindowUpdate(n) => [4] + BE(n, 4)
    case MaxData(n) => [5] + BE(n, 8)
    case ResetStream(n) => [6] + BE(n, 4)
    case MaxStreams(n) => [7] + BE(n, 4)
    case MtuProbe(n) => [8] + Zeros(FrameLen(f) - 1)
    case PathChallenge(d) => [9] + Fixed(d, 8)
    case PathResponse(d) => [10] + Fixed(d, 8)
    case ConnectionClose(code, kind, reason) => [11] + BE(code, 4) + BE(kind, 4) + BE(|reason|, 2) + reason
    case StopSending(stream, code) => [13] + BE(stream, 4) + BE(code, 4)
    case DataBlocked(n) => [14] + BE(n, 8)
    case StreamDataBlocked(stream, n) => [15] + BE(stream, 4) + BE(n, 8)
    case NewConnectionId(n, retire, cid, token) => EncodeNewCid(n, retire, cid, token)
    case RetireConnectionId(n) => [17] + BE(n, 8)
  }

  // ----- Decoding: `d` is what is left of the datagram -----

  type Step = Result<(Frame, nat)>

  function DecodeRanges(d: seq<byte>, n: nat): (r: seq<AckRange>)
    requires |d| >= 5 * n
    ensures |r| == n
    decreases n
  {
    if n == 0 then [] else [AckRange(d[0], UnBE(d[1..5]))] + DecodeRanges(d[5..], n - 1)
  }

  function DecodeAck(d: seq<byte>): Step {
    if |d| < 12 then Err(TooShort)
    else
      var n := d[7] as nat;
      if |d| < 12 + 5 * n then Err(TooShort)
      else Ok((Ack(AckFrame(UnBE(d[1..5]), UnBE(d[5..7]), UnBE(d[8..12]), DecodeRanges(d[12..], n))), 12 + 5 * n))
  }

  predicate HasFin(flags: byte) { flags % 2 == 1 }

  predicate HasSyn(flags: byte) { flags / 2 % 2 == 1 }

  function DecodeStream(d: seq<byte>): Step {
    if |d| < STREAM_FRAME_HEADER then Err(TooShort)
    else
      var n := UnBE(d[10..12]);
      if |d| < STREAM_FRAME_HEADER + n then Err(TooShort)
      else
        Ok((Stream(StreamFrame(HasFin(d[1]), HasSyn(d[1]), UnBE(d[2..10]), d[12..12 + n])), STREAM_FRAME_HEADER + n))
  }

  function DecodeClose(d: seq<byte>): Step {
    if |d| < 11 then Err(TooShort)
    else
      var n := UnBE(d[9..11]);
      if |d| < 11 + n then Err(TooShort)
      else Ok((ConnectionClose(UnBE(d[1..5]), UnBE(d[5..9]), d[11..11 + n]), 11 + n))
  }

  function DecodeNewCid(d: seq<byte>): Step {
    if |d| < 18 then Err(TooShort)
    else
      var n := d[17] as nat;
      if n > MAX_CID_LENGTH || |d| < 18 + n + TOKEN_LENGTH then Err(TooShort)
      else
        Ok((NewConnectionId(UnBE(d[1..9]), UnBE(d[9..17]), d[18..18 + n], d[18 + n..18 + n + TOKEN_LENGTH]),
            18 + n + TOKEN_LENGTH))
  }

  function Sized(d: seq<byte>, n: nat, f: Frame): Step { if |d| < n then Err(TooShort) else Ok((f, n)) }

  /** An unsigned field of `width` bytes at `at`, 0 where there is none. */
  function Field(d: seq<byte>, at: nat, width: nat): nat {
    if |d| < at + width then 0 else UnBE(d[at..at + width])
  }

  function Decode(d: seq<byte>): Step {
    if d == [] then Err(TooShort)
    else match d[0]
      case 0 => Ok((Padding, 1))
      case 1 => Ok((Ping, 1))
      case 2 => DecodeAck(d)
      case 3 => DecodeStream(d)
      case 4 => Sized(d, 5, WindowUpdate(Field(d, 1, 4)))
      case 5 => Sized(d, 9, MaxData(Field(d, 1, 8)))
      case 6 => Sized(d, 5, ResetStream(Field(d, 1, 4)))
      case 7 => Sized(d, 5, MaxStreams(Field(d, 1, 4)))
      case 8 => Ok((MtuProbe(|d|), |d|))
      case 9 => Sized(d, 9, PathChallenge(if |d| < 9 then [] else d[1..9]))
      case 10 => Sized(d, 9, PathResponse(if |d| < 9 then [] else d[1..9]))
      case 11 => DecodeClose(d)
      case 13 => Sized(d, 9, StopSending(Field(d, 1, 4), Field(d, 5, 4)))
      case 14 => Sized(d, 9, DataBlocked(Field(d, 1, 8)))
      case 15 => Sized(d, 13, StreamDataBlocked(Field(d, 1, 4), Field(d, 5, 8)))
      case 16 => DecodeNewCid(d)
      case 17 => Sized(d, 9, RetireConnectionId(Field(d, 1, 8)))
      case _ => Err(UnknownFrame)
  }

  /** Frames until the datagram is used up. */
  function DecodeAll(d: seq<byte>): Result<seq<Frame>>
    decreases |d|
  {
    if d == [] then Ok([])
    else match Decode(d)
      case Err(e) => Err(e)
      case Ok((f, n)) =>
        Consumes(d);
        match DecodeAll(d[n..])
        case Err(e) => Err(e)
        case Ok(fs) => Ok([f] + fs)
  }

  // ----- Any bytes at all -----

  /** What fits the wire: numbers within their fields, contents within their lengths. */
  predicate Fits(f: Frame) {
    match f
    case Padding => true
    case Ping => true
    case Ack(a) =>
      && a.largestAcked < TWO_32 && a.ackDelay < 65536 && a.firstLength < TWO_32 && |a.ranges| < 256
      && forall r <- a.ranges :: r.gap < 256 && r.length < TWO_32
    case Stream(s) => s.offset < TWO_32 * TWO_32 && |s.data| < 65536
    case WindowUpdate(n) => n < TWO_32
    case MaxData(n) => n < TWO_32 * TWO_32
    case ResetStream(n) => n < TWO_32
    case MaxStreams(n) => n < TWO_32
    case MtuProbe(n) => n >= 1
    case PathChallenge(d) => |d| == 8
    case PathResponse(d) => |d| == 8
    case ConnectionClose(code, kind, reason) => code < TWO_32 && kind < TWO_32 && |reason| < 65536
    case StopSending(stream, code) => stream < TWO_32 && code < TWO_32
    case DataBlocked(n) => n < TWO_32 * TWO_32
    case StreamDataBlocked(stream, n) => stream < TWO_32 && n < TWO_32 * TWO_32
    case NewConnectionId(n, retire, cid, token) =>
      n < TWO_32 * TWO_32 && retire < TWO_32 * TWO_32 && |cid| <= MAX_CID_LENGTH && |token| == TOKEN_LENGTH
    case RetireConnectionId(n) => n < TWO_32 * TWO_32
  }

  /** The frame was read within `d`, from exactly as many bytes as its length. */
  ghost predicate ReadFrom(d: seq<byte>, r: Step) {
    r.Ok? ==>
      var (f, n) := r.value;
      1 <= n <= |d| && n == FrameLen(f) && Fits(f) && (f.MtuProbe? ==> n == |d|)
  }

  lemma AckReadFrom(d: seq<byte>)
    ensures ReadFrom(d, DecodeAck(d))
  {
    if |d| >= 12 && |d| >= 12 + 5 * (d[7] as nat) {
      Widths();
      UnBEBounded(d[1..5]);
      UnBEBounded(d[5..7]);
      UnBEBounded(d[8..12]);
      RangesFit(d[12..], d[7]);
      hide UnBE, Pow, DecodeRanges;
    }
  }

  lemma StreamReadFrom(d: seq<byte>)
    ensures ReadFrom(d, DecodeStream(d))
  {
    if |d| >= STREAM_FRAME_HEADER {
      Widths();
      UnBEBounded(d[2..10]);
      UnBEBounded(d[10..12]);
      hide UnBE, Pow;
    }
  }

  lemma CloseReadFrom(d: seq<byte>)
    ensures ReadFrom(d, DecodeClose(d))
  {
    if |d| >= 11 {
      Widths();
      UnBEBounded(d[1..5]);
      UnBEBounded(d[5..9]);
      UnBEBounded(d[9..11]);
      hide UnBE, Pow;
    }
  }

  lemma NewCidReadFrom(d: seq<byte>)
    ensures ReadFrom(d, DecodeNewCid(d))
  {
    if |d| >= 18 {
      Widths();
      UnBEBounded(d[1..9]);
      UnBEBounded(d[9..17]);
      hide UnBE, Pow;
    }
  }

  /** Whatever the bytes: a frame read stays within them, takes at least one, and takes
      exactly the length of the frame it yields, which fits the wire. */
  lemma Consumes(d: seq<byte>)
    ensures ReadFrom(d, Decode(d))
  {
    hide Field, DecodeAck, DecodeStream, DecodeClose, DecodeNewCid;
    if d != [] {
      if d[0] == 2 {
        AckReadFrom(d);
      } else if d[0] == 3 {
        StreamReadFrom(d);
      } else if d[0] == 11 {
        CloseReadFrom(d);
      } else if d[0] == 16 {
        NewCidReadFrom(d);
      } else {
        FieldsBounded(d);
      }
    }
  }

  lemma FieldsBounded(d: seq<byte>)
    ensures Field(d, 1, 4) < TWO_32 && Field(d, 5, 4) < TWO_32
    ensures Field(d, 1, 8) < TWO_32 * TWO_32 && Field(d, 5, 8) < TWO_32 * TWO_32
  {
    hide Field;
    Widths();
    FieldBounded(d, 1, 4);
    FieldBounded(d, 5, 4);
    FieldBounded(d, 1, 8);
    FieldBounded(d, 5, 8);
    hide Pow;
  }

  lemma FieldBounded(d: seq<byte>, at: nat, width: nat)
    ensures Field(d, at, width) < Pow(width)
  {
    if |d| >= at + width { UnBEBounded(d[at..at + width]); }
  }

  lemma {:induction false} RangesFit(d: seq<byte>, n: nat)
    requires |d| >= 5 * n
    ensures forall r <- DecodeRanges(d, n) :: r.gap < 256 && r.length < TWO_32
    decreases n
  {
    if n > 0 {
      Widths();
      UnBEBounded(d[1..5]);
      RangesFit(d[5..], n - 1);
    }
  }

  // ----- Round trips -----

  /** A field read from where it was written. */
  lemma FieldAt(pre: seq<byte>, n: nat, width: nat, post: seq<byte>)
    requires n < Pow(width)
    ensures var d := pre + BE(n, width) + post;
            |d| >= |pre| + width && UnBE(d[|pre|..|pre| + width]) == n && Field(d, |pre|, width) == n
  {
    var d := pre + BE(n, width) + post;
    assert d[|pre|..|pre| + width] == BE(n, width);
    BERoundTrip(n, width);
  }

  lemma {:induction false} RangesRoundTrip(ranges: seq<AckRange>, post: seq<byte>)
    requires forall r <- ranges :: r.gap < 256 && r.length < TWO_32
    ensures DecodeRanges(EncodeRanges(ranges) + post, |ranges|) == ranges
    decreases |ranges|
  {
    hide *;
    if ranges == [] {
      DecodesNone(EncodeRanges(ranges) + post);
    } else {
      var r, rest := ranges[0], ranges[1..];
      assert r in ranges && forall x <- rest :: x in ranges;
      RangesRoundTrip(rest, post);
      EncodesOne(ranges, post);
      OneRange(r, EncodeRanges(rest) + post);
      RangeBack(EncodeRanges(ranges) + post, r, rest);
      assert ranges == [r] + rest;
    }
  }

  lemma DecodesNone(d: seq<byte>)
    ensures DecodeRanges(d, 0) == []
  {
  }

  lemma RangeBack(d: seq<byte>, r: AckRange, rest: seq<AckRange>)
    requires |d| >= 5 * (|rest| + 1) && d[0] == r.gap && UnBE(d[1..5]) == r.length
             && DecodeRanges(d[5..], |rest|) == rest
    ensures DecodeRanges(d, |rest| + 1) == [r] + rest
  {
    hide UnBE;
  }

  lemma EncodesOne(ranges: seq<AckRange>, post: seq<byte>)
    requires ranges != [] && ranges[0].gap < 256
    ensures EncodeRanges(ranges) + post ==
            [ranges[0].gap] + BE(ranges[0].length, 4) + (EncodeRanges(ranges[1..]) + post)
  {
    hide BE;
  }

  lemma OneRange(r: AckRange, more: seq<byte>)
    requires r.gap < 256 && r.length < TWO_32
    ensures var d := [r.gap] + BE(r.length, 4) + more;
            |d| == 5 + |more| && d[0] == r.gap && UnBE(d[1..5]) == r.length && d[5..] == more
  {
    Widths();
    FieldAt([r.gap], r.length, 4, more);
    hide BE, UnBE, Pow;
  }

  // Pieces put together, taken apart again.

  lemma Parts5(a: seq<byte>, b: seq<byte>, c: seq<byte>, e: seq<byte>, g: seq<byte>, rest: seq<byte>)
    ensures var d := a + b + c + e + g + rest;
            var i := |a|; var j := i + |b|; var k := j + |c|; var l := k + |e|; var m := l + |g|;
            d[..i] == a && d[i..j] == b && d[j..k] == c && d[k..l] == e && d[l..m] == g && d[m..] == rest
  {
  }

  lemma Parts6(a: seq<byte>, b: seq<byte>, c: seq<byte>, e: seq<byte>, g: seq<byte>, h: seq<byte>, rest: seq<byte>)
    ensures var d := a + b + c + e + g + h + rest;
            var i := |a|; var j := i + |b|; var k := j + |c|; var l := k + |e|; var m := l + |g|; var n := m + |h|;
            && d[..i] == a && d[i..j] == b && d[j..k] == c && d[k..l] == e && d[l..m] == g && d[m..n] == h
            && d[n..] == rest && d[m..] == h + rest
  {
  }

  lemma Parts8(a: seq<byte>, b: seq<byte>, c: seq<byte>, e: seq<byte>, g: seq<byte>, h: seq<byte>, p: seq<byte>,
               q: seq<byte>, rest: seq<byte>)
    ensures var d := a + b + c + e + g + h + p + q + rest;
            var i := |a|; var j := i + |b|; var k := j + |c|; var l := k + |e|; var m := l + |g|; var n := m + |h|;
            var o := n + |p|; var r := o + |q|;
            && d[..i] == a && d[i..j] == b && d[j..k] == c && d[k..l] == e && d[l..m] == g && d[m..n] == h
            && d[n..o] == p && d[o..r] == q && d[r..] == rest
  {
  }

  lemma AckParts(a: AckFrame, post: seq<byte>)
    ensures var d := EncodeAck(a) + post;
            && d[0] == 2 && d[1..5] == BE(a.largestAcked, 4) && d[5..7] == BE(a.ackDelay, 2) && d[7] == |a.ranges| % 256
            && d[8..12] == BE(a.firstLength, 4) && d[12..] == EncodeRanges(a.ranges) + post
  {
    var d, n := EncodeAck(a) + post, |a.ranges| % 256;
    Parts6([2], BE(a.largestAcked, 4), BE(a.ackDelay, 2), [n], BE(a.firstLength, 4), EncodeRanges(a.ranges), post);
    assert d[0] == d[..1][0] && d[7] == d[7..8][0];
    hide BE, EncodeRanges;
  }

  lemma AckRoundTrip(a: AckFrame, post: seq<byte>)
    requires Fits(Ack(a))
    ensures Decode(Encode(Ack(a)) + post) == Ok((Ack(a), FrameLen(Ack(a))))
  {
    hide EncodeAck, EncodeRanges, UnBE, BE, DecodeRanges;
    Widths();
    AckParts(a, post);
    BERoundTrip(a.largestAcked, 4);
    BERoundTrip(a.ackDelay, 2);
    BERoundTrip(a.firstLength, 4);
    RangesRoundTrip(a.ranges, post);
  }

  lemma StreamRoundTrip(f: StreamFrame, post: seq<byte>)
    requires Fits(Stream(f))
    ensures Decode(Encode(Stream(f)) + post) == Ok((Stream(f), FrameLen(Stream(f))))
  {
    Widths();
    FlagsBack(f);
    hide Encode, UnBE, BE, Flags, HasFin, HasSyn, Pow;
    StreamParts(f, post);
    BERoundTrip(f.offset, 8);
    BERoundTrip(|f.data|, 2);
  }

  lemma StreamParts(f: StreamFrame, post: seq<byte>)
    ensures var (d, n) := (Encode(Stream(f)) + post, |f.data|);
            && |d| >= 12 + n && d[0] == 3 && d[1] == Flags(f)
            && d[2..10] == BE(f.offset, 8) && d[10..12] == BE(n, 2) && d[12..12 + n] == f.data
  {
    var d := Encode(Stream(f)) + post;
    var o, l := BE(f.offset, 8), BE(|f.data|, 2);
    assert d == [3] + [Flags(f)] + o + l + f.data + post;
    hide Encode, BE, Flags;
    Parts5([3], [Flags(f)], o, l, f.data, post);
    assert d[0] == d[..1][0] && d[1] == d[1..2][0];
  }

  lemma FlagsBack(f: StreamFrame)
    ensures HasFin(Flags(f)) == f.isFin && HasSyn(Flags(f)) == f.isSyn
  {
  }

  lemma CloseRoundTrip(code: nat, kind: nat, reason: seq<byte>, post: seq<byte>)
    requires Fits(ConnectionClose(code, kind, reason))
    ensures var f := ConnectionClose(code, kind, reason); Decode(Encode(f) + post) == Ok((f, FrameLen(f)))
  {
    var d, n := Encode(ConnectionClose(code, kind, reason)) + post, |reason|;
    var c, k, l := BE(code, 4), BE(kind, 4), BE(n, 2);
    assert d == [11] + c + k + l + reason + post;
    Widths();
    hide Encode, UnBE, BE;
    BERoundTrip(code, 4);
    BERoundTrip(kind, 4);
    BERoundTrip(n, 2);
    Parts5([11], c, k, l, reason, post);
    assert d[0] == d[..1][0];
  }

  lemma NewCidParts(n: nat, retire: nat, cid: seq<byte>, token: seq<byte>, post: seq<byte>)
    requires |token| == TOKEN_LENGTH
    ensures var d, k := EncodeNewCid(n, retire, cid, token) + post, |cid|;
            && d[0] == 16 && d[1..9] == BE(n, 8) && d[9..17] == BE(retire, 8) && d[17] == k % 256
            && d[18..18 + k] == cid && d[18 + k..18 + k + TOKEN_LENGTH] == token
  {
    var d, k := EncodeNewCid(n, retire, cid, token) + post, |cid|;
    Parts6([16], BE(n, 8), BE(retire, 8), [k % 256], cid, token, post);
    assert d[0] == d[..1][0] && d[17] == d[17..18][0];
    hide BE;
  }

  lemma NewCidRoundTrip(n: nat, retire: nat, cid: seq<byte>, token: seq<byte>, post: seq<byte>)
    requires Fits(NewConnectionId(n, retire, cid, token))
    ensures var f := NewConnectionId(n, retire, cid, token); Decode(Encode(f) + post) == Ok((f, FrameLen(f)))
  {
    hide EncodeNewCid, UnBE, BE;
    Widths();
    NewCidParts(n, retire, cid, token, post);
    BERoundTrip(n, 8);
    BERoundTrip(retire, 8);
  }

  /** One number after the type byte, or two. */
  lemma OneField(t: byte, n: nat, width: nat, post: seq<byte>)
    requires n < Pow(width)
    ensures var d := [t] + BE(n, width) + post; |d| >= 1 + width && d[0] == t && Field(d, 1, width) == n
  {
    FieldAt([t], n, width, post);
    hide Field;
  }

  lemma TwoFields(t: byte, a: nat, b: nat, width: nat, post: seq<byte>)
    requires a < Pow(4) && b < Pow(width)
    ensures var d := [t] + BE(a, 4) + BE(b, width) + post;
            |d| >= 5 + width && d[0] == t && Field(d, 1, 4) == a && Field(d, 5, width) == b
  {
    var d := [t] + BE(a, 4) + BE(b, width) + post;
    assert d == [t] + BE(a, 4) + (BE(b, width) + post);
    FieldAt([t], a, 4, BE(b, width) + post);
    FieldAt([t] + BE(a, 4), b, width, post);
    hide Field;
  }

  lemma PathRoundTrip(f: Frame, post: seq<byte>)
    requires Fits(f) && (f.PathChallenge? || f.PathResponse?)
    ensures Decode(Encode(f) + post) == Ok((f, FrameLen(f)))
  {
    var d := Encode(f) + post;
    assert d[1..9] == if f.PathChallenge? then f.challenge else f.response;
  }

  lemma NumberRoundTrip(f: Frame, post: seq<byte>)
    requires Fits(f) && (f.WindowUpdate? || f.MaxData? || f.ResetStream? || f.MaxStreams? || f.DataBlocked?
                         || f.RetireConnectionId?)
    ensures Decode(Encode(f) + post) == Ok((f, FrameLen(f)))
  {
    Widths();
    hide Field, BE, Pow, EncodeAck, EncodeNewCid, DecodeAck, DecodeStream, DecodeClose, DecodeNewCid, Zeros, Fixed;
    match f {
      case WindowUpdate(n) => OneField(4, n, 4, post);
      case MaxData(n) => OneField(5, n, 8, post);
      case ResetStream(n) => OneField(6, n, 4, post);
      case MaxStreams(n) => OneField(7, n, 4, post);
      case DataBlocked(n) => OneField(14, n, 8, post);
      case RetireConnectionId(n) => OneField(17, n, 8, post);
    }
  }

  lemma NumbersRoundTrip(f: Frame, post: seq<byte>)
    requires Fits(f) && (f.StopSending? || f.StreamDataBlocked?)
    ensures Decode(Encode(f) + post) == Ok((f, FrameLen(f)))
  {
    Widths();
    hide Field, BE, Pow, EncodeAck, EncodeNewCid, DecodeAck, DecodeStream, DecodeClose, DecodeNewCid, Zeros, Fixed;
    match f {
      case StopSending(stream, code) => TwoFields(13, stream, code, 4, post);
      case StreamDataBlocked(stream, n) => TwoFields(15, stream, n, 8, post);
    }
  }

  /** A frame that fits is read back whole, whatever follows it; a path-MTU probe takes
      the rest of the datagram, so nothing may follow it. */
  lemma FrameRoundTrip(f: Frame, post: seq<byte>)
    requires Fits(f) && (f.MtuProbe? ==> post == [])
    ensures Decode(Encode(f) + post) == Ok((f, FrameLen(f)))
  {
    match f
    case Padding =>
    case Ping =>
    case Ack(a) => AckRoundTrip(a, post);
    case Stream(s) => StreamRoundTrip(s, post);
    case MtuProbe(n) =>
    case PathChallenge(_) => PathRoundTrip(f, post);
    case PathResponse(_) => PathRoundTrip(f, post);
    case ConnectionClose(code, kind, reason) => CloseRoundTrip(code, kind, reason, post);
    case NewConnectionId(n, retire, cid, token) => NewCidRoundTrip(n, retire, cid, token, post);
    case StopSending(_, _) => NumbersRoundTrip(f, post);
    case StreamDataBlocked(_, _) => NumbersRoundTrip(f, post);
    case _ => NumberRoundTrip(f, post);
  }

  // ----- And back: what was read is what is there -----

  lemma {:induction false} RangesReencode(d: seq<byte>, n: nat)
    requires |d| >= 5 * n
    ensures EncodeRanges(DecodeRanges(d, n)) == d[..5 * n]
    decreases n
  {
    if n > 0 {
      hide BE, UnBE;
      var ranges, rest := DecodeRanges(d, n), d[5..];
      assert ranges[0] == AckRange(d[0], UnBE(d[1..5])) && ranges[1..] == DecodeRanges(rest, n - 1);
      RangesReencode(rest, n - 1);
      UnBERoundTrip(d[1..5]);
      Glue3(d, 1, 5, 5 * n);
      assert rest[..5 * (n - 1)] == d[5..5 * n];
    }
  }

  lemma Glue3(d: seq<byte>, a: nat, b: nat, c: nat)
    requires 1 == a <= b <= c <= |d|
    ensures [d[0]] + d[a..b] + d[b..c] == d[..c]
  {
  }

  lemma AckReencodes(d: seq<byte>)
    requires |d| > 0 && d[0] == 2 && DecodeAck(d).Ok?
    ensures var (f, n) := DecodeAck(d).value; f.Ack? && n <= |d| && EncodeAck(f.ack) == d[..n]
  {
    hide BE, UnBE, DecodeRanges, EncodeRanges;
    var n := d[7] as nat;
    UnBERoundTrip(d[1..5]);
    UnBERoundTrip(d[5..7]);
    UnBERoundTrip(d[8..12]);
    RangesReencode(d[12..], n);
    assert d[12..][..5 * n] == d[12..12 + 5 * n];
    assert d[..12 + 5 * n] == [d[0]] + d[1..5] + d[5..7] + [d[7]] + d[8..12] + d[12..12 + 5 * n];
  }

  lemma StreamReencodes(d: seq<byte>)
    requires |d| > 1 && d[0] == 3 && d[1] < 4 && DecodeStream(d).Ok?
    ensures var (f, n) := DecodeStream(d).value; n <= |d| && Encode(f) == d[..n]
  {
    var n := UnBE(d[10..12]);
    UnBERoundTrip(d[2..10]);
    UnBERoundTrip(d[10..12]);
    hide BE, UnBE;
    assert d[..12 + n] == [d[0]] + [d[1]] + d[2..10] + d[10..12] + d[12..12 + n];
  }

  lemma CloseReencodes(d: seq<byte>)
    requires |d| > 0 && d[0] == 11 && DecodeClose(d).Ok?
    ensures var (f, n) := DecodeClose(d).value; n <= |d| && Encode(f) == d[..n]
  {
    var n := UnBE(d[9..11]);
    UnBERoundTrip(d[1..5]);
    UnBERoundTrip(d[5..9]);
    UnBERoundTrip(d[9..11]);
    hide BE, UnBE;
    assert d[..11 + n] == [d[0]] + d[1..5] + d[5..9] + d[9..11] + d[11..11 + n];
  }

  lemma NewCidReencodes(d: seq<byte>)
    requires |d| > 0 && d[0] == 16 && DecodeNewCid(d).Ok?
    ensures var (f, n) := DecodeNewCid(d).value; n <= |d| && Encode(f) == d[..n]
  {
    var n := d[17] as nat;
    UnBERoundTrip(d[1..9]);
    UnBERoundTrip(d[9..17]);
    hide BE, UnBE;
    var m := 18 + n + TOKEN_LENGTH;
    assert d[..m] == [d[0]] + d[1..9] + d[9..17] + [d[17]] + d[18..18 + n] + d[18 + n..m];
  }

  lemma FieldReencodes(d: seq<byte>, at: nat, width: nat)
    requires at + width <= |d|
    ensures BE(Field(d, at, width), width) == d[at..at + width]
  {
    UnBERoundTrip(d[at..at + width]);
  }

  lemma NumberReencodes(d: seq<byte>)
    requires |d| > 0 && Decode(d).Ok?
    requires d[0] in {4, 5, 6, 7, 9, 10, 13, 14, 15, 17}
    ensures var (f, n) := Decode(d).value; n <= |d| && Encode(f) == d[..n]
  {
    hide BE, UnBE, Field;
    if |d| >= 5 { FieldReencodes(d, 1, 4); }
    if |d| >= 9 { FieldReencodes(d, 1, 8); FieldReencodes(d, 5, 4); }
    if |d| >= 13 { FieldReencodes(d, 5, 8); }
    var n := Decode(d).value.1;
    assert d[..n] == [d[0]] + d[1..n];
    assert n == 9 ==> d[1..n] == d[1..5] + d[5..9];
    assert n == 13 ==> d[1..n] == d[1..5] + d[5..13];
  }

  /** Reading loses nothing: encoding the frame that was read gives back the bytes it was
      read from. A path-MTU probe is read whatever it is filled with, and the six unused
      bits of a STREAM frame's flags are not looked at; nothing else is ambiguous. */
  lemma FrameReencodes(d: seq<byte>)
    requires Decode(d).Ok?
    ensures var (f, n) := Decode(d).value;
            1 <= n <= |d| && (!f.MtuProbe? && (f.Stream? ==> d[1] < 4) ==> Encode(f) == d[..n])
  {
    Consumes(d);
    if d[0] == 2 {
      AckReencodes(d);
    } else if d[0] == 3 {
      if d[1] < 4 { StreamReencodes(d); }
    } else if d[0] == 11 {
      CloseReencodes(d);
    } else if d[0] == 16 {
      NewCidReencodes(d);
    } else if d[0] > 1 && d[0] != 8 {
      NumberReencodes(d);
    }
    hide BE, UnBE, Field, DecodeAck, DecodeStream, DecodeClose, DecodeNewCid, EncodeAck, EncodeNewCid;
  }

  /** The types that are refused are those the transport does not know. */
  lemma UnknownExactly(d: seq<byte>)
    ensures Decode(d) == Err(UnknownFrame) <==> d != [] && (d[0] == 12 || d[0] > 17)
    ensures Decode(d) != Err(BadCidLength)
  {
    hide UnBE, DecodeRanges;
  }

  function EncodeAll(fs: seq<Frame>): seq<byte> {
    if fs == [] then [] else EncodeAll(fs[..|fs| - 1]) + Encode(fs[|fs| - 1])
  }

  function FramesLen(fs: seq<Frame>): nat {
    if fs == [] then 0 else FramesLen(fs[..|fs| - 1]) + FrameLen(fs[|fs| - 1])
  }

  lemma {:induction false} EncodeAllLen(fs: seq<Frame>)
    ensures |EncodeAll(fs)| == FramesLen(fs)
  {
    hide Encode, FrameLen;
    if fs != [] { EncodeAllLen(fs[..|fs| - 1]); }
  }

  /** All fit, and a path-MTU probe only comes last. */
  predicate FramesFit(fs: seq<Frame>) {
    (forall i :: 0 <= i < |fs| ==> Fits(fs[i]) && (fs[i].MtuProbe? ==> i == |fs| - 1))
  }

  lemma {:induction false} EncodeFirst(fs: seq<Frame>)
    requires fs != []
    ensures EncodeAll(fs) == Encode(fs[0]) + EncodeAll(fs[1..])
    decreases |fs|
  {
    hide Encode;
    var init, tail, last := fs[..|fs| - 1], fs[1..], fs[|fs| - 1];
    if |fs| == 1 {
      assert init == [] && tail == [] && EncodeAll([]) == [];
    } else {
      EncodeFirst(init);
      var mid := EncodeAll(init[1..]);
      assert init[1..] == tail[..|tail| - 1];
      assert EncodeAll(tail) == mid + Encode(last);
      Assoc(Encode(fs[0]), mid, Encode(last));
    }
  }

  lemma Assoc(a: seq<byte>, b: seq<byte>, c: seq<byte>)
    ensures a + b + c == a + (b + c)
  {
  }

  lemma {:induction false} FramesRoundTrip(fs: seq<Frame>)
    requires FramesFit(fs)
    ensures DecodeAll(EncodeAll(fs)) == Ok(fs)
    decreases |fs|
  {
    hide Fits, Encode, Decode;
    if fs == [] {
    } else {
      var rest := EncodeAll(fs[1..]);
      EncodeFirst(fs);
      assert |fs| == 1 ==> fs[1..] == [];
      FrameRoundTrip(fs[0], rest);
      var d := EncodeAll(fs);
      assert d[FrameLen(fs[0])..] == rest;
      FramesRoundTrip(fs[1..]);
      assert fs == [fs[0]] + fs[1..];
    }
  }

  /** Frames read from any bytes fit, and use the bytes up exactly. */
  lemma {:induction false} DecodeAllExact(d: seq<byte>)
    ensures DecodeAll(d).Ok? ==> FramesFit(DecodeAll(d).value) && FramesLen(DecodeAll(d).value) == |d|
    decreases |d|
  {
    hide Fits, Decode, FrameLen;
    if d != [] && DecodeAll(d).Ok? {
      Consumes(d);
      var (f, n) := Decode(d).value;
      DecodeAllExact(d[n..]);
      var fs := DecodeAll(d[n..]).value;
      LenFirst([f] + fs);
      assert ([f] + fs)[1..] == fs;
    }
  }

  lemma {:induction false} LenFirst(fs: seq<Frame>)
    requires fs != []
    ensures FramesLen(fs) == FrameLen(fs[0]) + FramesLen(fs[1..])
    decreases |fs|
  {
    hide FrameLen;
    if |fs| == 1 {
      assert fs[..0] == [] && fs[1..] == [];
    } else {
      LenFirst(fs[..|fs| - 1]);
      assert fs[..|fs| - 1][1..] == fs[1..][..|fs| - 2];
    }
  }

  // ----- Packets -----

  function Header(p: Packet): (b: seq<byte>)
    ensures |b| == MIN_HEADER + |p.dcid| + |p.scid|
  {
    BE(p.version, 4) + [|p.dcid| % 256] + p.dcid + [|p.scid| % 256] + p.scid
      + BE(p.sequence, 4) + BE(p.dstStream, 4) + BE(p.srcStream, 4)
  }

  function Marshal(p: Packet): seq<byte> { Header(p) + EncodeAll(p.frames) }

  function Unmarshal(data: seq<byte>): Result<Packet> {
    if |data| < MIN_HEADER then Err(TooShort)
    else
      var dl := data[4] as nat;
      if dl > MAX_CID_LENGTH then Err(BadCidLength)
      else if 5 + dl >= |data| then Err(TooShort)
      else
        var sl, at := data[5 + dl] as nat, 6 + dl;
        if sl > MAX_CID_LENGTH then Err(BadCidLength)
        else if at + sl + 12 > |data| then Err(TooShort)
        else
          var at' := at + sl;
          match DecodeAll(data[at' + 12..])
          case Err(e) => Err(e)
          case Ok(fs) =>
            Ok(Packet(UnBE(data[..4]), data[5..5 + dl], data[at..at'], UnBE(data[at'..at' + 4]),
                      UnBE(data[at' + 4..at' + 8]), UnBE(data[at' + 8..at' + 12]), fs))
  }

  predicate PacketFits(p: Packet) {
    && p.version < TWO_32 && p.sequence < TWO_32 && p.dstStream < TWO_32 && p.srcStream < TWO_32
    && |p.dcid| <= MAX_CID_LENGTH && |p.scid| <= MAX_CID_LENGTH && FramesFit(p.frames)
  }

  lemma HeaderParts(p: Packet, body: seq<byte>)
    ensures var data := Header(p) + body;
            var dl, sl := |p.dcid|, |p.scid|;
            var at := 6 + dl + sl;
            && data[4] == dl % 256 && data[5 + dl] == sl % 256
            && data[..4] == BE(p.version, 4) && data[5..5 + dl] == p.dcid && data[6 + dl..at] == p.scid
            && data[at..at + 4] == BE(p.sequence, 4) && data[at + 4..at + 8] == BE(p.dstStream, 4)
            && data[at + 8..at + 12] == BE(p.srcStream, 4) && data[at + 12..] == body
  {
    var data, dl, sl := Header(p) + body, |p.dcid|, |p.scid|;
    Parts8(BE(p.version, 4), [dl % 256], p.dcid, [sl % 256], p.scid, BE(p.sequence, 4), BE(p.dstStream, 4),
           BE(p.srcStream, 4), body);
    assert data[4] == data[4..5][0] && data[5 + dl] == data[5 + dl..6 + dl][0];
    hide BE;
  }

  /** Every field of the header is read from where it was written. */
  lemma HeaderRoundTrip(p: Packet, body: seq<byte>)
    requires PacketFits(p)
    ensures var data := Header(p) + body;
            var dl, sl := |p.dcid|, |p.scid|;
            var at := 6 + dl + sl;
            && data[4] == dl && data[5 + dl] == sl
            && UnBE(data[..4]) == p.version && data[5..5 + dl] == p.dcid && data[6 + dl..at] == p.scid
            && UnBE(data[at..at + 4]) == p.sequence && UnBE(data[at + 4..at + 8]) == p.dstStream
            && UnBE(data[at + 8..at + 12]) == p.srcStream && data[at + 12..] == body
  {
    hide Header, BE, UnBE, FramesFit;
    Widths();
    HeaderParts(p, body);
    BERoundTrip(p.version, 4);
    BERoundTrip(p.sequence, 4);
    BERoundTrip(p.dstStream, 4);
    BERoundTrip(p.srcStream, 4);
  }

  /** Whatever parses fits, and is as long as what it was parsed from: the frame loop
      used the datagram up exactly. */
  lemma UnmarshalExact(data: seq<byte>)
    ensures Unmarshal(data).Ok? ==>
              var p := Unmarshal(data).value; PacketFits(p) && |Marshal(p)| == |data|
  {
    hide UnBE, DecodeAll, EncodeAll, FramesFit, Header;
    if Unmarshal(data).Ok? {
      var p := Unmarshal(data).value;
      var dl := data[4] as nat;
      var at := 6 + dl + data[5 + dl] as nat;
      Widths();
      UnBEBounded(data[..4]);
      UnBEBounded(data[at..at + 4]);
      UnBEBounded(data[at + 4..at + 8]);
      UnBEBounded(data[at + 8..at + 12]);
      hide Pow;
      DecodeAllExact(data[at + 12..]);
      EncodeAllLen(p.frames);
    }
  }

  /** A datagram is accepted exactly when it is a header with connection IDs of at most
      twenty bytes each, and frames that can all be read; the packet is what it says. */
  lemma AcceptsExactly(data: seq<byte>, p: Packet)
    ensures Unmarshal(data) == Ok(p) <==>
              && |data| >= MIN_HEADER + |p.dcid| + |p.scid| && |p.dcid| <= 20 && |p.scid| <= 20
              && p.version < TWO_32 && p.sequence < TWO_32 && p.dstStream < TWO_32 && p.srcStream < TWO_32
              && data[..MIN_HEADER + |p.dcid| + |p.scid|] == Header(p)
              && DecodeAll(data[MIN_HEADER + |p.dcid| + |p.scid|..]) == Ok(p.frames)
  {
    hide *;
    var n := MIN_HEADER + |p.dcid| + |p.scid|;
    if Unmarshal(data) == Ok(p) {
      HeaderReencodes(data, p);
    } else if |data| >= n && |p.dcid| <= 20 && |p.scid| <= 20 && p.version < TWO_32 && p.sequence < TWO_32
              && p.dstStream < TWO_32 && p.srcStream < TWO_32 && data[..n] == Header(p)
              && DecodeAll(data[n..]) == Ok(p.frames) {
      assert data == data[..n] + data[n..];
      HeaderAccepted(p, data[n..]);
    }
  }

  lemma HeaderReencodes(data: seq<byte>, p: Packet)
    requires Unmarshal(data) == Ok(p)
    ensures |data| >= MIN_HEADER + |p.dcid| + |p.scid| && |p.dcid| <= 20 && |p.scid| <= 20
    ensures p.version < TWO_32 && p.sequence < TWO_32 && p.dstStream < TWO_32 && p.srcStream < TWO_32
    ensures data[..MIN_HEADER + |p.dcid| + |p.scid|] == Header(p)
    ensures DecodeAll(data[MIN_HEADER + |p.dcid| + |p.scid|..]) == Ok(p.frames)
  {
    UnmarshalExact(data);
    hide DecodeAll, BE, UnBE, FramesFit, Marshal;
    var dl := data[4] as nat;
    var at := 6 + dl + data[5 + dl] as nat;
    UnBERoundTrip(data[..4]);
    UnBERoundTrip(data[at..at + 4]);
    UnBERoundTrip(data[at + 4..at + 8]);
    UnBERoundTrip(data[at + 8..at + 12]);
    HeaderGlue(data, dl, data[5 + dl]);
  }

  lemma HeaderGlue(d: seq<byte>, dl: nat, sl: nat)
    requires MIN_HEADER + dl + sl <= |d|
    ensures var at := 6 + dl + sl;
            d[..at + 12] == d[..4] + [d[4]] + d[5..5 + dl] + [d[5 + dl]] + d[6 + dl..at]
                            + d[at..at + 4] + d[at + 4..at + 8] + d[at + 8..at + 12]
  {
    var at := 6 + dl + sl;
    Joined(d, 4, 5);
    Joined(d, 5, 5 + dl);
    Joined(d, 5 + dl, 6 + dl);
    Joined(d, 6 + dl, at);
    Joined(d, at, at + 4);
    Joined(d, at + 4, at + 8);
    Joined(d, at + 8, at + 12);
    assert d[4..5] == [d[4]] && d[5 + dl..6 + dl] == [d[5 + dl]];
  }

  lemma Joined(d: seq<byte>, a: nat, b: nat)
    requires a <= b <= |d|
    ensures d[..a] + d[a..b] == d[..b]
  {
  }

  lemma HeaderAccepted(p: Packet, body: seq<byte>)
    requires |p.dcid| <= 20 && |p.scid| <= 20
    requires p.version < TWO_32 && p.sequence < TWO_32 && p.dstStream < TWO_32 && p.srcStream < TWO_32
    requires DecodeAll(body) == Ok(p.frames)
    ensures Unmarshal(Header(p) + body) == Ok(p)
  {
    DecodeAllExact(body);
    hide DecodeAll, BE, UnBE, FramesFit, Header;
    HeaderRoundTrip(p, body);
  }

  lemma FittingRoundTrip(p: Packet)
    requires PacketFits(p)
    ensures Unmarshal(Marshal(p)) == Ok(p)
  {
    hide Header, UnBE, DecodeAll, EncodeAll, Fits;
    HeaderRoundTrip(p, EncodeAll(p.frames));
    FramesRoundTrip(p.frames);
    hide FramesFit;
  }

  /** A packet survives the wire exactly when it fits it. */
  lemma PacketRoundTrip(p: Packet)
    ensures Unmarshal(Marshal(p)) == Ok(p) <==> PacketFits(p)
  {
    hide Unmarshal, Marshal, PacketFits;
    if PacketFits(p) { FittingRoundTrip(p); }
    UnmarshalExact(Marshal(p));
  }

  // ----- The buffers -----

  /** Copy `b` into the buffer at `offset`. */
  method Put(buf: array<byte>, offset: nat, b: seq<byte>) returns (next: nat)
    requires offset + |b| <= buf.Length
    modifies buf
    ensures next == offset + |b|
    ensures buf[..offset] == old(buf[..offset]) && buf[offset..next] == b && buf[next..] == old(buf[next..])
  {
    for i := 0 to |b|
      invariant buf[..offset] == old(buf[..offset]) && buf[offset..offset + i] == b[..i]
      invariant buf[offset + i..] == old(buf[offset + i..])
    {
      buf[offset + i] := b[i];
    }
    next := offset + |b|;
  }

  /** Encode a packet into a buffer of exactly its length. */
  method MarshalPacket(p: Packet) returns (buf: array<byte>)
    ensures fresh(buf) && buf[..] == Marshal(p)
  {
    hide Header, EncodeAll, FramesLen;
    var framesLen := TotalLen(p.frames);
    var header := Header(p);
    buf := new byte[|header| + framesLen](_ => 0);
    var offset := Put(buf, 0, header);
    offset := PutFrames(buf, offset, p.frames);
    assert buf[..] == buf[..|header|] + buf[|header|..];
  }

  method TotalLen(frames: seq<Frame>) returns (n: nat)
    ensures n == FramesLen(frames)
  {
    n := 0;
    hide FrameLen;
    for i := 0 to |frames|
      invariant n == FramesLen(frames[..i])
    {
      n := n + FrameLen(frames[i]);
      assert frames[..i + 1][..i] == frames[..i];
    }
    assert frames[..|frames|] == frames;
  }

  method PutFrames(buf: array<byte>, start: nat, frames: seq<Frame>) returns (offset: nat)
    requires start + FramesLen(frames) == buf.Length
    modifies buf
    ensures offset == buf.Length
    ensures buf[..start] == old(buf[..start]) && buf[start..] == EncodeAll(frames)
  {
    hide Encode, FrameLen;
    offset := start;
    for i := 0 to |frames|
      invariant offset == start + FramesLen(frames[..i]) <= buf.Length
      invariant buf[..start] == old(buf[..start]) && buf[start..offset] == EncodeAll(frames[..i])
    {
      OneMore(frames, i);
      FramesLenGrows(frames, i + 1);
      offset := PutOne(buf, start, offset, Encode(frames[i]), EncodeAll(frames[..i]));
    }
    assert frames[..|frames|] == frames;
  }

  /** Append one more encoding to what the buffer holds from `start`. */
  method PutOne(buf: array<byte>, start: nat, offset: nat, b: seq<byte>, ghost done: seq<byte>) returns (next: nat)
    requires start <= offset && offset + |b| <= buf.Length && buf[start..offset] == done
    modifies buf
    ensures next == offset + |b| && buf[..start] == old(buf[..start]) && buf[start..next] == done + b
  {
    next := Put(buf, offset, b);
    assert buf[start..offset] == buf[..offset][start..] && old(buf[start..offset]) == old(buf[..offset])[start..];
    assert buf[start..next] == buf[start..offset] + buf[offset..next];
    assert buf[..start] == buf[..offset][..start] && old(buf[..start]) == old(buf[..offset])[..start];
  }

  lemma OneMore(frames: seq<Frame>, i: nat)
    requires i < |frames|
    ensures EncodeAll(frames[..i + 1]) == EncodeAll(frames[..i]) + Encode(frames[i])
    ensures FramesLen(frames[..i + 1]) == FramesLen(frames[..i]) + |Encode(frames[i])|
  {
    hide Encode, FrameLen;
    assert frames[..i + 1][..i] == frames[..i];
  }

  lemma {:induction false} FramesLenGrows(frames: seq<Frame>, i: nat)
    requires i <= |frames|
    ensures FramesLen(frames[..i]) <= FramesLen(frames)
    decreases |frames| - i
  {
    if i < |frames| {
      FramesLenGrows(frames, i + 1);
      assert frames[..i + 1][..i] == frames[..i];
    } else {
      assert frames[..i] == frames;
    }
  }

  function Prepend(fs: seq<Frame>, r: Result<seq<Frame>>): Result<seq<Frame>> {
    match r
    case Err(e) => Err(e)
    case Ok(gs) => Ok(fs + gs)
  }

  /** The frame loop: one frame at a time until the datagram is used up. */
  method UnmarshalFrames(data: seq<byte>, start: nat) returns (r: Result<seq<Frame>>)
    requires start <= |data|
    ensures r == DecodeAll(data[start..])
  {
    var offset, frames := start, [];
    PrependNone(DecodeAll(data[start..]));
    while offset < |data|
      invariant start <= offset <= |data|
      invariant DecodeAll(data[start..]) == Prepend(frames, DecodeAll(data[offset..]))
      decreases |data| - offset
    {
      var left := data[offset..];
      Consumes(left);
      match Decode(left) {
        case Err(e) => return Err(e);
        case Ok((f, n)) =>
          assert left[n..] == data[offset + n..];
          PrependOne(frames, f, DecodeAll(left[n..]));
          frames := frames + [f];
          offset := offset + n;
      }
    }
    assert data[offset..] == [];
    assert frames + [] == frames;
    r := Ok(frames);
  }

  lemma PrependNone(r: Result<seq<Frame>>)
    ensures Prepend([], r) == r
  {
    if r.Ok? { assert [] + r.value == r.value; }
  }

  lemma PrependOne(fs: seq<Frame>, f: Frame, r: Result<seq<Frame>>)
    ensures Prepend(fs, Prepend([f], r)) == Prepend(fs + [f], r)
  {
    if r.Ok? { assert fs + ([f] + r.value) == fs + [f] + r.value; }
  }

  method UnmarshalPacket(data: seq<byte>) returns (r: Result<Packet>)
    ensures r == Unmarshal(data)
  {
    if |data| < MIN_HEADER { return Err(TooShort); }
    var version := UnBE(data[..4]);
    var offset := 4;
    var dl := data[offset] as nat;
    offset := offset + 1;
    if dl > MAX_CID_LENGTH { return Err(BadCidLength); }
    if offset + dl > |data| { return Err(TooShort); }
    var dcid := data[offset..offset + dl];
    offset := offset + dl;
    if offset >= |data| { return Err(TooShort); }
    var sl := data[offset] as nat;
    offset := offset + 1;
    if sl > MAX_CID_LENGTH { return Err(BadCidLength); }
    if offset + sl > |data| { return Err(TooShort); }
    var scid := data[offset..offset + sl];
    offset := offset + sl;
    if offset + 12 > |data| { return Err(TooShort); }
    var sequence := UnBE(data[offset..offset + 4]);
    var dst := UnBE(data[offset + 4..offset + 8]);
    var src := UnBE(data[offset + 8..offset + 12]);
    offset := offset + 12;
    var frames := UnmarshalFrames(data, offset);
    match frames {
      case Err(e) => r := Err(e);
      case Ok(fs) => r := Ok(Packet(version, dcid, scid, sequence, dst, src, fs));
    }
  }
}
