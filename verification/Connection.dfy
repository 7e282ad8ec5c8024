/** The sending half of a connection: data packets out, ACKs in, loss recovery under
    the congestion window and the pacer. Every method of the source that takes a lock
    is one function on the connection's state here; `Connections` in
    ConnectionClass.dfy carries the same steps out on mutable objects. */
module Sending {
  import opened Frames
  import opened Packets
  import Pacing
  import Congestion
  import PathMtu
  import Streams

  const PTO_PROBES: nat := 2

  /** The bytes `lo..hi` of a stream. */
  datatype Span = Span(stream: nat, lo: nat, hi: nat)

  /** A datagram carrying one STREAM frame, and the record it was sent for. */
  datatype Datagram = Datagram(ref: nat, stream: nat, frame: StreamFrame) {
    function Bytes(): Span { Span(stream, frame.offset, frame.End()) }
  }

  /** History the source does not keep, for stating what the steps preserve:
      `written` and `finished` are what the applications wrote and closed, `carriers`
      the bytes each packet record answers for, `acked` the records acknowledged, and
      `unbooked` the header bytes that probe timeouts added without booking them. */
  datatype History = History(
    written: map<nat, seq<byte>>, finished: set<nat>, carriers: map<nat, Span>,
    acked: set<nat>, unbooked: nat)

  /** `hdr` is the length of the packet header with both connection IDs; `wire` and
      `probes` are what was handed to the socket, by sequence number; of a path-MTU probe
      only its size matters. */
  datatype Conn = Conn(
    hdr: nat, pm: Manager, cc: Congestion.Controller, mtu: PathMtu.Search,
    queue: seq<SentPacket>, lostTimer: Option<int>, ackedLarge: bool,
    wire: map<nat, Datagram>, probes: map<nat, nat>, nextRef: nat, log: History)

  predicate Headers(hdr: nat) { MIN_HEADER <= hdr <= MIN_HEADER + 2 * MAX_CID_LENGTH }

  function NewConn(hdr: nat): Conn {
    Conn(hdr, Packets.Fresh(), Congestion.Fresh(), PathMtu.Start(), [], None, false,
         map[], map[], 0, History(map[], {}, map[], {}, 0))
  }

  /** What was written on a stream so far. */
  function WrittenOn(log: History, stream: nat): seq<byte> {
    if stream in log.written then log.written[stream] else []
  }

  function Written(c: Conn, stream: nat): seq<byte> { WrittenOn(c.log, stream) }

  function PacketSize(c: Conn, f: StreamFrame): nat { c.hdr + FrameLen(Stream(f)) }

  function SpanOf(stream: nat, f: StreamFrame): Span { Span(stream, f.offset, f.End()) }

  /** The packet's one STREAM frame. */
  function FrameOf(p: SentPacket): StreamFrame
    requires |p.frames| == 1 && p.frames[0].Stream?
  {
    p.frames[0].stream
  }

  // ----- Sending new data -----

  /** Sequence, track and book one data packet, and put it on the wire. The frame
      continues what was written on its stream. */
  function SendData(c: Conn, stream: nat, f: StreamFrame, paced: bool, now: int): Conn {
    var size := PacketSize(c, f);
    var p := SentPacket(c.nextRef, c.pm.nextSeq, now, size, false, [Stream(f)], stream, false);
    var cc := Congestion.OnPacketSent(c.cc, size, now);
    c.(pm := Track(c.pm.(nextSeq := c.pm.nextSeq + 1), p),
       cc := if paced then cc.(pacer := Pacing.OnSent(cc.pacer, size, now)) else cc,
       wire := c.wire[p.sequence := Datagram(p.ref, stream, f)],
       nextRef := c.nextRef + 1,
       log := c.log.(written := c.log.written[stream := Written(c, stream) + f.data],
                     carriers := c.log.carriers[p.ref := SpanOf(stream, f)]))
  }

  function SendAll(c: Conn, stream: nat, fs: seq<StreamFrame>, now: int): Conn {
    if fs == [] then c
    else SendData(SendAll(c, stream, fs[..|fs| - 1], now), stream, fs[|fs| - 1], true, now)
  }

  /** One batch of a Write: consecutive frames of at most `chunk` bytes. */
  function Write(c: Conn, stream: nat, data: seq<byte>, chunk: nat, isSyn: bool, now: int): Conn
    requires chunk > 0
  {
    SendAll(c, stream, Streams.Chunks(|Written(c, stream)|, data, chunk, isSyn, false), now)
  }

  /** Close: a FIN that carries no data, at the stream's final size. */
  function Finish(c: Conn, stream: nat, now: int): Conn {
    SendData(c.(log := c.log.(finished := c.log.finished + {stream})), stream,
             StreamFrame(true, false, |Written(c, stream)|, []), false, now)
  }

  // ----- Re-sending -----

  /** Put a packet back on the wire under a fresh sequence. */
  function Retransmit(c: Conn, p: SentPacket, now: int): Option<Conn> {
    match Resend(c.pm, p, now)
    case None => None
    case Some((pm, p')) =>
      Some(c.(pm := pm,
              wire := if IsData(p) then c.wire[p'.sequence := Datagram(p.ref, p.streamId, FrameOf(p))] else c.wire))
  }

  /** One STREAM frame: what every data packet carries. */
  predicate IsData(p: SentPacket) { |p.frames| == 1 && p.frames[0].Stream? && !p.probe }

  /** The bytes left for data in a packet the path carries. */
  function PieceSize(c: Conn): int { c.mtu.current as int - c.hdr - STREAM_FRAME_HEADER }

  predicate MustSplit(c: Conn, p: SentPacket) {
    && p.size > c.mtu.current && |p.frames| == 1 && p.frames[0].Stream?
    && 0 < PieceSize(c) < |FrameOf(p).data|
  }

  function PieceFrames(c: Conn, p: SentPacket): seq<StreamFrame>
    requires MustSplit(c, p)
  {
    var f := FrameOf(p);
    Streams.Chunks(f.offset, f.data, PieceSize(c), f.isSyn, f.isFin)
  }

  /** The records that replace a packet larger than the path carries. They have no
      sequence of their own until they are sent. */
  function Pieces(c: Conn, p: SentPacket): seq<SentPacket>
    requires MustSplit(c, p)
  {
    var fs := PieceFrames(c, p);
    seq(|fs|, i requires 0 <= i < |fs| =>
      SentPacket(c.nextRef + i, 0, 0, PacketSize(c, fs[i]), false, [Stream(fs[i])], p.streamId, false))
  }

  function PieceSpan(stream: nat, fs: seq<StreamFrame>, base: nat, r: nat): Span
    requires base <= r < base + |fs|
  {
    SpanOf(stream, fs[r - base])
  }

  ghost function PieceSpans(c: Conn, p: SentPacket): map<nat, Span>
    requires MustSplit(c, p)
  {
    var fs := PieceFrames(c, p);
    map r: nat | c.nextRef <= r < c.nextRef + |fs| :: PieceSpan(p.streamId, fs, c.nextRef, r)
  }

  /** Drop the packet from tracking; its pieces answer for its bytes from here on. */
  ghost function Split(c: Conn, p: SentPacket): Conn
    requires MustSplit(c, p)
  {
    c.(pm := Drop(c.pm, p), nextRef := c.nextRef + |PieceFrames(c, p)|,
       log := c.log.(carriers := c.log.carriers - {p.ref} + PieceSpans(c, p)))
  }

  // ----- The queue of lost packets -----

  function Oversized(q: seq<SentPacket>, limit: nat): nat {
    if q == [] then 0 else (if q[0].size > limit then 1 else 0) + Oversized(q[1..], limit)
  }

  lemma {:induction false} OversizedConcat(a: seq<SentPacket>, b: seq<SentPacket>, limit: nat)
    ensures Oversized(a + b, limit) == Oversized(a, limit) + Oversized(b, limit)
  {
    if a == [] {
      assert a + b == b;
    } else {
      assert (a + b)[1..] == a[1..] + b;
      OversizedConcat(a[1..], b, limit);
    }
  }

  lemma {:induction false} NoneOversized(q: seq<SentPacket>, limit: nat)
    requires forall p <- q :: p.size <= limit
    ensures Oversized(q, limit) == 0
  {
    if q != [] { NoneOversized(q[1..], limit); }
  }

  /** Every piece fits the path, and there is more than one of them. */
  lemma PiecesFit(c: Conn, p: SentPacket)
    requires MustSplit(c, p)
    ensures |Pieces(c, p)| > 1
    ensures forall q <- Pieces(c, p) :: q.size <= c.mtu.current
  {
    var f, fs := FrameOf(p), PieceFrames(c, p);
    Streams.ChunksCut(f.offset, f.data, PieceSize(c), f.isSyn, f.isFin);
    hide Streams.Chunks, Streams.Flagged;
    assert fs[0] in fs;
    forall i | 0 <= i < |fs| ensures Pieces(c, p)[i].size <= c.mtu.current { assert fs[i] in fs; }
  }

  /** Re-chunking moves, repeats and loses no byte: the pieces carry consecutive slices
      of the frame from its offset to its end, SYN only on the first and FIN only on the
      last, each a packet the path carries. */
  lemma PiecesCarryAll(c: Conn, p: SentPacket)
    requires MustSplit(c, p)
    ensures var f, fs, ps := FrameOf(p), PieceFrames(c, p), Pieces(c, p);
            && Streams.Chain(fs, f.offset, f.End()) && Streams.Flagged(fs, f.isSyn, f.isFin)
            && (forall g <- fs :: Streams.Slice(g, f.offset, f.data, PieceSize(c)))
            && |ps| == |fs| > 1
            && forall i :: 0 <= i < |ps| ==>
                 ps[i].frames == [Stream(fs[i])] && ps[i].streamId == p.streamId
                 && ps[i].size == PacketSize(c, fs[i]) <= c.mtu.current
  {
    var f := FrameOf(p);
    Streams.ChunksCut(f.offset, f.data, PieceSize(c), f.isSyn, f.isFin);
    PiecesFit(c, p);
    forall i | 0 <= i < |Pieces(c, p)| ensures Pieces(c, p)[i].size <= c.mtu.current {
      assert Pieces(c, p)[i] in Pieces(c, p);
    }
    hide Streams.Chunks;
  }

  lemma SplitShrinks(c: Conn, p: SentPacket, rest: seq<SentPacket>)
    requires MustSplit(c, p)
    ensures Oversized(Pieces(c, p) + rest, c.mtu.current) < Oversized([p] + rest, c.mtu.current)
  {
    PiecesFit(c, p);
    OversizedConcat(Pieces(c, p), rest, c.mtu.current);
    NoneOversized(Pieces(c, p), c.mtu.current);
    assert ([p] + rest)[1..] == rest;
  }

  /** Book a re-sent packet with the window and the pacer. */
  function Booked(c: Conn, size: nat, now: int): Conn {
    var cc := Congestion.OnPacketSent(c.cc, size, now);
    c.(cc := cc.(pacer := Pacing.OnSent(cc.pacer, size, now)))
  }

  /** Re-send queued packets, oldest first, while the window and the pacer allow. */
  ghost function Flush(c: Conn, now: int): Conn
    decreases Oversized(c.queue, c.mtu.current), |c.queue|
  {
    if c.queue == [] then c
    else
      var p, rest := c.queue[0], c.queue[1..];
      assert c.queue == [p] + rest;
      if p.isAcked then Flush(c.(queue := rest), now)
      else if MustSplit(c, p) then
        SplitShrinks(c, p, rest);
        Flush(Split(c, p).(queue := Pieces(c, p) + rest), now)
      else
        var wait := Pacing.TimeUntilSend(c.cc.pacer, now);
        if wait > 0 then c.(lostTimer := Some(now + wait))
        else if !Congestion.CanSend(c.cc, p.size) then c
        else
          var c1 := c.(queue := rest);
          match Retransmit(c1, p, now)
          case None => Flush(c1, now)
          case Some(c2) => Flush(Booked(c2, p.size, now), now)
  }

  ghost function FlushLost(c: Conn, now: int): Conn { Flush(c.(lostTimer := None), now) }

  // ----- Loss, acknowledgement and the probe timeout -----

  function DataSize(ps: seq<SentPacket>): nat {
    if ps == [] then 0
    else DataSize(ps[..|ps| - 1]) + (if ps[|ps| - 1].probe then 0 else ps[|ps| - 1].size)
  }

  function DataOnly(ps: seq<SentPacket>): seq<SentPacket> {
    if ps == [] then []
    else DataOnly(ps[..|ps| - 1]) + (if ps[|ps| - 1].probe then [] else [ps[|ps| - 1]])
  }

  function MtuAfterLoss(m: PathMtu.Search, lost: seq<SentPacket>, countLarge: bool, now: int): PathMtu.Search {
    if lost == [] then m
    else
      var m1, p := MtuAfterLoss(m, lost[..|lost| - 1], countLarge, now), lost[|lost| - 1];
      if p.probe then PathMtu.OnProbeLost(m1, p.size)
      else if countLarge then PathMtu.OnDataLost(m1, p.size, now) else m1
  }

  /** The time, if there is one, is before `at`. */
  predicate Before(time: Option<int>, at: int) { time.Some? ==> time.value < at }

  /** The bytes leave flight, the window contracts once per epoch, and to the minimum
      if the loss spans three probe timeouts with nothing acknowledged since. */
  function CcAfterLoss(cc: Congestion.Controller, data: seq<SentPacket>, lastSentSeq: int,
                       ackBeforeLoss: Option<int>): Congestion.Controller
    requires data != []
  {
    var cc1 := Congestion.OnPacketLost(cc, DataSize(data), lastSentSeq);
    var oldest, newest := data[0], data[|data| - 1];
    if !cc1.firstRttSample && newest.sentTime - oldest.sentTime >= Congestion.PersistentCongestionDuration(cc1)
       && Before(ackBeforeLoss, oldest.sentTime)
    then Congestion.OnPersistentCongestion(cc1) else cc1
  }

  /** The loss is persistent congestion: an RTT is known, it spans three probe timeouts,
      and nothing was acknowledged since the oldest of it went out. */
  predicate LossPersists(cc: Congestion.Controller, data: seq<SentPacket>, ackBeforeLoss: Option<int>)
    requires data != []
  {
    && !cc.firstRttSample && Before(ackBeforeLoss, data[0].sentTime)
    && data[|data| - 1].sentTime - data[0].sentTime >= 3 * Congestion.Pto(cc)
  }

  /** Section 7.6 of RFC 9002: any loss leaves recovery open, except persistent
      congestion, which alone collapses the window to the minimum and closes it. */
  lemma CollapsesExactly(cc: Congestion.Controller, data: seq<SentPacket>, lastSentSeq: int,
                         ackBeforeLoss: Option<int>)
    requires data != []
    ensures var cc' := CcAfterLoss(cc, data, lastSentSeq, ackBeforeLoss);
            && (cc'.inRecovery <==> !LossPersists(cc, data, ackBeforeLoss))
            && (LossPersists(cc, data, ackBeforeLoss) ==> cc'.cwnd == MIN_CWND)
            && (!LossPersists(cc, data, ackBeforeLoss) ==>
                  && cc'.cwnd == (if cc.inRecovery then cc.cwnd else Max(cc.cwnd * 7 / 10, MIN_CWND))
                  && cc'.recoveryEndSeq == if cc.inRecovery then cc.recoveryEndSeq else lastSentSeq)
  {
    hide Pacing.UpdateRate;
  }

  /** What loss detection declared lost, and took out of tracking, joins the queue. */
  ghost function OnPacketsLost(c: Conn, lost: seq<SentPacket>, now: int): Conn {
    var c1 := c.(mtu := MtuAfterLoss(c.mtu, lost, !c.ackedLarge, now));
    var data := DataOnly(lost);
    if data == [] then c1
    else FlushLost(Queued(c1, data), now)
  }

  function Queued(c: Conn, data: seq<SentPacket>): Conn
    requires data != []
  {
    c.(cc := CcAfterLoss(c.cc, data, c.pm.lastSentSeq, c.pm.ackBeforeLoss), queue := c.queue + data)
  }

  ghost function DetectLost(c: Conn, now: int): Conn {
    var (pm, lost) := Detect(c.pm, now, LossDelay(c.cc.smoothedRtt, c.cc.latestRtt));
    if lost == [] then c.(pm := pm) else OnPacketsLost(c.(pm := pm), lost, now)
  }

  /** The loss timer fires. */
  ghost function LossTimerFires(c: Conn, now: int): Conn {
    DetectLost(c.(pm := c.pm.(ackBeforeLoss := c.pm.lastAckTime)), now)
  }

  function MtuAfterAck(m: PathMtu.Search, acked: seq<SentPacket>): PathMtu.Search {
    if acked == [] then m
    else
      var m1, p := MtuAfterAck(m, acked[..|acked| - 1]), acked[|acked| - 1];
      if p.probe then PathMtu.OnProbeAcked(m1, p.size)
      else if p.size > SAFE_DATAGRAM_SIZE then PathMtu.OnDataAcked(m1, p.size) else m1
  }

  /** The send time of the packet whose sequence is the frame's largest. */
  function LargestSample(acked: seq<SentPacket>, largest: nat): Option<int> {
    if acked == [] then None
    else if acked[|acked| - 1].sequence == largest then Some(acked[|acked| - 1].sentTime)
    else LargestSample(acked[..|acked| - 1], largest)
  }

  ghost function DataRefs(ps: seq<SentPacket>): set<nat> {
    set p | p in ps && !p.probe :: p.ref
  }

  /** Book what a frame newly acknowledged. */
  ghost function AckBooked(c: Conn, f: AckFrame, acked: seq<SentPacket>, now: int, target: int): Conn {
    c.(mtu := MtuAfterAck(c.mtu, acked),
       ackedLarge := exists p :: p in acked && !p.probe && p.size > SAFE_DATAGRAM_SIZE,
       cc := Congestion.OnPacketAcked(c.cc, DataSize(acked), LargestSample(acked, f.largestAcked),
                                      f.ackDelay * MILLISECOND, f.largestAcked, now, target),
       log := c.log.(acked := c.log.acked + DataRefs(acked)))
  }

  /** An ACK frame arrives: book it, then loss detection, then the queue, then the next
      path-MTU probe. `target` is CUBIC's window. */
  ghost function HandleAckFrame(c: Conn, f: AckFrame, now: int, target: int): Conn {
    var (pm, acked) := HandleAck(c.pm, f, now);
    if acked == [] then c
    else
      var c1 := AckBooked(c.(pm := pm), f, acked, now, target);
      ProbeMtu(FlushLost(DetectLost(c1, now), now), now)
  }

  /** Send the next path-MTU probe, tracked but not booked. */
  function ProbeMtu(c: Conn, now: int): Conn {
    if c.cc.firstRttSample then c
    else
      var (mtu, size) := PathMtu.NextProbe(c.mtu, now);
      if size == 0 then c.(mtu := mtu)
      else
        var frame := MtuProbe(size - c.hdr);
        var p := SentPacket(c.nextRef, c.pm.nextSeq, now, c.hdr + FrameLen(frame), false, [frame], 0, true);
        c.(mtu := mtu, pm := Track(c.pm.(nextSeq := c.pm.nextSeq + 1), p),
           probes := c.probes[p.sequence := p.size], nextRef := c.nextRef + 1)
  }

  /** Re-send probe packets outside the window: not booked, but drawn from the pacer. */
  function Probe(c: Conn, ps: seq<SentPacket>, now: int): Conn {
    if ps == [] then c else ProbeWith(Probe(c, ps[..|ps| - 1], now), ps[|ps| - 1], now)
  }

  function ProbeWith(c: Conn, p: SentPacket, now: int): Conn {
    match Retransmit(c, p, now)
    case None => c
    case Some(c1) => c1.(cc := c1.cc.(pacer := Pacing.OnSent(c1.cc.pacer, p.size, now)))
  }

  /** `n` more headers of `size` bytes. */
  function ExtraHeaders(n: nat, size: nat): nat {
    if n == 0 then 0 else ExtraHeaders(n - 1, size) + size
  }

  /** One outstanding packet, re-chunked if the path shrank under it. */
  ghost function ProbeOne(c: Conn, p: SentPacket, now: int): Conn {
    if MustSplit(c, p) then Probe(SplitUnbooked(c, p), Pieces(c, p), now) else ProbeWith(c, p, now)
  }

  /** A tracked packet is replaced by its pieces; their extra headers are not booked. */
  ghost function SplitUnbooked(c: Conn, p: SentPacket): Conn
    requires MustSplit(c, p)
  {
    PiecesFit(c, p);
    var added := ExtraHeaders(|Pieces(c, p)| - 1, c.hdr + STREAM_FRAME_HEADER);
    Split(c, p).(log := Split(c, p).log.(unbooked := c.log.unbooked + added))
  }

  /** Nothing has been acknowledged for a probe timeout: the oldest outstanding packets
      go out again. */
  ghost function OnPto(c: Conn, now: int): Conn {
    var c1 := if c.cc.ptoCount >= PathMtu.BLACKHOLE_PTOS then c.(mtu := PathMtu.Blackhole(c.mtu, now)) else c;
    ProbeEach(c1, Oldest(c1.pm, PTO_PROBES), now)
  }

  ghost function ProbeEach(c: Conn, ps: seq<SentPacket>, now: int): Conn {
    if ps == [] then c
    else
      var c1, p := ProbeEach(c, ps[..|ps| - 1], now), ps[|ps| - 1];
      ProbeOne(c1, p, now)
  }

  ghost function PtoFires(c: Conn, now: int): Conn {
    var c1 := OnPto(c.(cc := Congestion.PtoExpired(c.cc)), now);
    c1.(cc := Congestion.PtoRearmed(c1.cc, now))
  }
}
