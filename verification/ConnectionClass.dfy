/** The connection as an object: the packet manager, the congestion controller with its
    pacer, the path-MTU search and the queue of lost packets, updated in place. Each
    method is proved to take exactly the step that `Sending` describes. */
module Connections {
  import opened Frames
  import opened Packets
  import opened Sending
  import Admission
  import Congestion
  import Outcomes
  import Pacing
  import PathMtu
  import Streams

  class Connection {
    const hdr: nat
    const pm: PacketManager
    const cc: Congestion.CongestionController
    const mtu: PathMtu.MTUDiscovery
    var lostQueue: seq<SentPacket>
    var lostTimer: Option<int>
    var ackedLarge: bool
    var wire: map<nat, Datagram>  // handed to the socket, by sequence
    var probes: map<nat, nat>
    var nextRef: nat
    ghost var log: History

    ghost function Model(): Conn
      reads this, pm, cc, cc.pacer, mtu
    {
      Conn(hdr, pm.Model(), cc.Model(), mtu.Model(), lostQueue, lostTimer, ackedLarge, wire, probes, nextRef, log)
    }

    constructor (header: nat)
      ensures Model() == NewConn(header) && fresh(pm) && fresh(cc) && fresh(cc.pacer) && fresh(mtu)
    {
      hdr := header;
      pm := new PacketManager();
      cc := new Congestion.CongestionController();
      mtu := new PathMtu.MTUDiscovery();
      lostQueue, lostTimer, ackedLarge, wire, probes, nextRef := [], None, false, map[], map[], 0;
      log := History(map[], {}, map[], {}, 0);
    }

    // ----- Sending -----

    /** Sequence, track and book one data packet, and put it on the wire. */
    method PrepareDataPacket(stream: nat, f: StreamFrame, paced: bool, now: int)
      modifies this, pm, cc, cc.pacer
      ensures Model() == SendData(old(Model()), stream, f, paced, now)
    {
      hide Congestion.OnPacketSent, Pacing.OnSent, FrameLen, PacketManager.Model, Congestion.CongestionController.Model;
      var s := pm.NextSequence();
      var size := hdr + FrameLen(Stream(f));
      pm.SendPacket(SentPacket(nextRef, s, now, size, false, [Stream(f)], stream, false), now);
      BookPacket(size, paced, now);
      wire := wire[s := Datagram(nextRef, stream, f)];
      log := log.(written := log.written[stream := WrittenOn(log, stream) + f.data],
                  carriers := log.carriers[nextRef := SpanOf(stream, f)]);
      nextRef := nextRef + 1;
    }

    /** The packet enters flight, and is drawn from the pacer unless it is exempt. */
    method BookPacket(size: nat, paced: bool, now: int)
      modifies cc, cc.pacer
      ensures var cc1 := Congestion.OnPacketSent(old(cc.Model()), size, now);
              cc.Model() == if paced then cc1.(pacer := Pacing.OnSent(cc1.pacer, size, now)) else cc1
    {
      hide Congestion.OnPacketSent, Pacing.OnSent;
      cc.BookSent(size, now);
      if paced { cc.pacer.Draw(size, now); }
    }

    /** Send data as consecutive STREAM frames of at most `chunk` bytes. */
    method SendStreamFrames(stream: nat, offset: nat, data: seq<byte>, chunk: nat, isSyn: bool, now: int)
      requires chunk > 0 && offset == |Written(Model(), stream)|
      modifies this, pm, cc, cc.pacer
      ensures Model() == Write(old(Model()), stream, data, chunk, isSyn, now)
    {
      hide SendData, Model, Streams.Chunks;
      ghost var c0 := Model();
      ghost var all, done := Streams.Chunks(offset, data, chunk, isSyn, false), [];
      var rest, at: nat, syn := data, offset, isSyn;
      assert all == done + all;
      while |rest| > 0
        invariant Model() == SendAll(c0, stream, done, now)
        invariant all == done + Streams.Chunks(at, rest, chunk, syn, false)
        decreases |rest|
      {
        var k := chunk;
        if k > |rest| { k := |rest|; }
        var f := StreamFrame(false, syn, at, rest[..k]);
        Streams.ChunkOff(all, done, at, rest, chunk, syn, false);
        SendOneMore(c0, stream, done, f, now);
        PrepareDataPacket(stream, f, true, now);
        done := done + [f];
        syn, at, rest := false, at + k, rest[k..];
      }
      Streams.NoMoreChunks(at, chunk, syn, false);
      assert done + [] == done;
    }

    /** The bare FIN of a close. */
    method SendFin(stream: nat, offset: nat, now: int)
      requires offset == |Written(Model(), stream)|
      modifies this, pm, cc, cc.pacer
      ensures Model() == Finish(old(Model()), stream, now)
    {
      hide SendData;
      log := log.(finished := log.finished + {stream});
      PrepareDataPacket(stream, StreamFrame(true, false, offset, []), false, now);
    }

    // ----- Re-sending -----

    /** A fresh sequence for a packet, and back onto the wire with it. */
    method ResendData(p: SentPacket, now: int) returns (ok: bool)
      modifies this, pm
      ensures match Retransmit(old(Model()), p, now)
              case None => !ok && Model() == old(Model())
              case Some(c) => ok && Model() == c
    {
      var r := pm.ResendPacket(p, now);
      match r {
        case None => return false;
        case Some(p') =>
          if |p.frames| == 1 && p.frames[0].Stream? && !p.probe {
            wire := wire[p'.sequence := Datagram(p.ref, p.streamId, p.frames[0].stream)];
          }
          return true;
      }
    }

    /** Re-chunk a packet larger than the path carries; one that fits comes back as it is. */
    method FitToPath(p: SentPacket) returns (pieces: seq<SentPacket>)
      modifies this, pm
      ensures var c := old(Model());
              if MustSplit(c, p) then pieces == Pieces(c, p) && Model() == Split(c, p)
              else pieces == [p] && Model() == c
    {
      hide FrameLen, PieceSpans, Streams.Chunks;
      ghost var c := Model();
      if p.size <= mtu.current || |p.frames| != 1 || !p.frames[0].Stream? { return [p]; }
      var sf := p.frames[0].stream;
      var piece := mtu.current as int - hdr - STREAM_FRAME_HEADER;
      if piece <= 0 || piece >= |sf.data| { return [p]; }
      assert MustSplit(c, p);
      pm.DropPacket(p);
      var frames := Streams.Cut(sf.offset, sf.data, piece, sf.isSyn, sf.isFin);
      pieces := PieceRecords(frames, p.streamId);
      log := log.(carriers := log.carriers - {p.ref} + PieceSpans(c, p));
      nextRef := nextRef + |frames|;
    }

    method PieceRecords(frames: seq<StreamFrame>, stream: nat) returns (pieces: seq<SentPacket>)
      ensures |pieces| == |frames|
      ensures forall i :: 0 <= i < |frames| ==>
                pieces[i] == SentPacket(nextRef + i, 0, 0, hdr + FrameLen(Stream(frames[i])), false,
                    [Stream(frames[i])], stream, false)
    {
      pieces := [];
      for i := 0 to |frames|
        invariant |pieces| == i
        invariant forall j :: 0 <= j < i ==>
                    pieces[j] == SentPacket(nextRef + j, 0, 0, hdr + FrameLen(Stream(frames[j])), false,
                        [Stream(frames[j])], stream, false)
      {
        pieces := pieces + [SentPacket(nextRef + i, 0, 0, hdr + FrameLen(Stream(frames[i])), false,
                                       [Stream(frames[i])], stream, false)];
      }
    }

    /** Re-send queued packets, oldest first, while the window and the pacer allow. */
    method FlushQueue(now: int)
      modifies this, pm, cc, cc.pacer
      ensures Model() == FlushLost(old(Model()), now)
      ensures cc.cwnd == old(cc.cwnd) && (cc.inflight == old(cc.inflight) || old(cc.inflight) <= cc.inflight <= cc.cwnd)
      ensures lostQueue != [] && lostTimer.None? ==> cc.inflight + lostQueue[0].size > cc.cwnd
      ensures lostQueue == [] ==> lostTimer.None?
    {
      hide FlushLost, Admission.Budget, Admission.StopsFor;
      Admission.QueueAdmitted(Model(), now);
      DrainQueue(now);
    }

    method DrainQueue(now: int)
      modifies this, pm, cc, cc.pacer
      ensures Model() == FlushLost(old(Model()), now)
    {
      hide Flush, Split, Pieces, MustSplit, Retransmit, Congestion.OnPacketSent, Pacing.OnSent, Pacing.TimeUntilSend;
      lostTimer := None;
      ghost var start := Model();
      while |lostQueue| > 0
        invariant Flush(Model(), now) == Flush(start, now)
        decreases Oversized(lostQueue, mtu.current), |lostQueue|
      {
        ghost var c := Model();
        FlushIs(c, now);
        var p := lostQueue[0];
        NoSplit(c, p);
        ghost var rest := lostQueue[1..];
        assert lostQueue == [p] + rest;
        if p.isAcked {
          OversizedTail(lostQueue, mtu.current);
          lostQueue := lostQueue[1..];
          continue;
        }
        if p.size > mtu.current {
          var pieces := FitToPath(p);
          if |pieces| > 1 {
            SplitShrinks(c, p, rest);
            lostQueue := pieces + lostQueue[1..];
            continue;
          }
        }
        var wait := cc.pacer.Wait(now);
        if wait > 0 {
          lostTimer := Some(now + wait);
          return;
        }
        if cc.inflight + p.size > cc.cwnd { return; }
        OversizedTail(lostQueue, mtu.current);
        SendHead(now);
      }
      FlushNone(Model(), now);
    }

    /** The head of the queue goes out, booked as the new packet it is. */
    method SendHead(now: int)
      requires lostQueue != []
      modifies this, pm, cc, cc.pacer
      ensures var c, p := old(Model()), old(lostQueue)[0];
              Model() == match Retransmit(c.(queue := c.queue[1..]), p, now)
                         case None => c.(queue := c.queue[1..])
                         case Some(c2) => Booked(c2, p.size, now)
      ensures lostQueue == old(lostQueue)[1..]
    {
      hide Retransmit, Congestion.OnPacketSent, Pacing.OnSent;
      var p := lostQueue[0];
      lostQueue := lostQueue[1..];
      ResendAlone(Model(), p, now);
      var ok := ResendData(p, now);
      if ok {
        cc.BookSent(p.size, now);
        cc.pacer.Draw(p.size, now);
      }
    }

    // ----- Loss -----

    /** Sort the lost packets: probes to the path-MTU search, data to be queued. */
    method SortLost(lost: seq<SentPacket>, now: int) returns (data: seq<SentPacket>)
      modifies mtu
      ensures mtu.Model() == MtuAfterLoss(old(mtu.Model()), lost, !ackedLarge, now) && data == DataOnly(lost)
    {
      hide PathMtu.OnProbeLost, PathMtu.OnDataLost;
      data := [];
      for i := 0 to |lost|
        invariant mtu.Model() == MtuAfterLoss(old(mtu.Model()), lost[..i], !ackedLarge, now)
                  && data == DataOnly(lost[..i])
      {
        var p := lost[i];
        assert lost[..i + 1][..i] == lost[..i];
        assert data + [] == data;
        if p.probe {
          mtu.HandleProbeLost(p.size);
        } else {
          if !ackedLarge { mtu.HandleDataLost(p.size, now); }
          data := data + [p];
        }
      }
      assert lost[..|lost|] == lost;
    }

    method HandlePacketsLost(lost: seq<SentPacket>, now: int)
      modifies this, pm, cc, cc.pacer, mtu
      ensures Model() == OnPacketsLost(old(Model()), lost, now)
    {
      hide MtuAfterLoss, CcAfterLoss, Flush, DataOnly;
      var data := SortLost(lost, now);
      if |data| == 0 { return; }
      DataHasNoProbes(lost);
      BookLoss(data);
      lostQueue := lostQueue + data;
      FlushQueue(now);
    }

    /** The lost bytes leave flight, and the window contracts. */
    method BookLoss(data: seq<SentPacket>)
      requires data != [] && forall p <- data :: !p.probe
      modifies cc, cc.pacer
      ensures cc.Model() == CcAfterLoss(old(cc.Model()), data, pm.lastSentSeq, pm.ackBeforeLoss)
    {
      hide Congestion.OnPacketLost, Congestion.OnPersistentCongestion;
      var bytes := 0;
      for i := 0 to |data|
        invariant bytes == DataSize(data[..i])
      {
        assert data[..i + 1][..i] == data[..i] && data[i] in data;
        bytes := bytes + data[i].size;
      }
      assert data[..|data|] == data;
      hide DataSize;
      cc.BookLost(bytes, pm.lastSentSeq);
      var oldest, newest := data[0], data[|data| - 1];
      var duration := cc.PersistentDuration();
      var quiet := pm.ackBeforeLoss.None? || pm.ackBeforeLoss.value < oldest.sentTime;
      if !cc.firstRttSample && newest.sentTime - oldest.sentTime >= duration && quiet {
        cc.Collapse();
      }
    }

    method DetectLostPackets(now: int)
      requires Keyed(pm.Model())
      modifies this, pm, cc, cc.pacer, mtu
      ensures Model() == DetectLost(old(Model()), now)
    {
      hide Detect, OnPacketsLost, LossDelay;
      var lost := pm.DetectLostPackets(now, LossDelay(cc.smoothedRtt, cc.latestRtt));
      if |lost| > 0 { HandlePacketsLost(lost, now); }
    }

    method LossTimerFired(now: int)
      requires Keyed(pm.Model())
      modifies this, pm, cc, cc.pacer, mtu
      ensures Model() == LossTimerFires(old(Model()), now)
    {
      hide DetectLost;
      pm.ackBeforeLoss := pm.lastAckTime;
      DetectLostPackets(now);
    }

    // ----- Acknowledgement -----

    /** What the packets acknowledged come to: bytes out of flight, the send time behind
        the RTT sample, whether any was large, and what the path-MTU search learns. */
    method TallyAcked(acked: seq<SentPacket>, largest: nat) returns (bytes: nat, sample: Option<int>, large: bool)
      modifies mtu
      ensures mtu.Model() == MtuAfterAck(old(mtu.Model()), acked) && bytes == DataSize(acked)
      ensures sample == LargestSample(acked, largest)
      ensures sample.Some? <==> exists p :: p in acked && p.sequence == largest
      ensures sample.Some? ==> exists p :: p in acked && p.sequence == largest && sample.value == p.sentTime
      ensures large <==> exists p :: p in acked && !p.probe && p.size > SAFE_DATAGRAM_SIZE
    {
      hide PathMtu.OnProbeAcked, PathMtu.OnDataAcked;
      Outcomes.SampleFrom(acked, largest);
      bytes, sample, large := 0, None, false;
      for i := 0 to |acked|
        invariant mtu.Model() == MtuAfterAck(old(mtu.Model()), acked[..i]) && bytes == DataSize(acked[..i])
        invariant sample == LargestSample(acked[..i], largest)
        invariant large <==> exists p :: p in acked[..i] && !p.probe && p.size > SAFE_DATAGRAM_SIZE
      {
        var p := acked[i];
        assert acked[..i + 1][..i] == acked[..i] && acked[..i + 1] == acked[..i] + [p];
        if p.sequence == largest { sample := Some(p.sentTime); }
        if p.probe {
          mtu.HandleProbeAcked(p.size);
        } else {
          bytes := bytes + p.size;
          if p.size > SAFE_DATAGRAM_SIZE {
            large := true;
            mtu.HandleDataAcked(p.size);
          }
        }
      }
      assert acked[..|acked|] == acked;
    }

    method BookAcked(f: AckFrame, acked: seq<SentPacket>, now: int, target: int)
      modifies this, cc, cc.pacer, mtu
      ensures Model() == AckBooked(old(Model()), f, acked, now, target)
      ensures cc.inflight == Max(old(cc.inflight) - DataSize(acked), 0) && cc.cwnd >= old(cc.cwnd)
      ensures (forall p <- acked :: p.sequence != f.largestAcked) ==>
                cc.cwnd == old(cc.cwnd) && cc.smoothedRtt == old(cc.smoothedRtt) && cc.latestRtt == old(cc.latestRtt)
    {
      Congestion.AckSamplesRtt(cc.Model(), DataSize(acked), LargestSample(acked, f.largestAcked),
                               f.ackDelay * MILLISECOND, f.largestAcked, now, target);
      hide MtuAfterAck, DataSize, LargestSample, Congestion.OnPacketAcked, DataRefs;
      var bytes, sample, large := TallyAcked(acked, f.largestAcked);
      ackedLarge := large;
      cc.BookAcked(bytes, sample, f.ackDelay * MILLISECOND, f.largestAcked, now, target);
      log := log.(acked := log.acked + DataRefs(acked));
    }

    /** An ACK frame arrives. */
    method HandleAckFrame(f: AckFrame, now: int, target: int)
      requires Keyed(pm.Model())
      modifies this, pm, cc, cc.pacer, mtu
      ensures Model() == Sending.HandleAckFrame(old(Model()), f, now, target)
    {
      hide HandleAck, AckBooked, DetectLost, FlushLost, ProbeMtu;
      AckKeyed(pm.Model(), f, now);
      var acked := pm.HandleAckFrame(f, now);
      if |acked| > 0 {
        BookAcked(f, acked, now, target);
        AckBookedManager(old(Model()).(pm := pm.Model()), f, acked, now, target);
        DetectLostPackets(now);
        FlushQueue(now);
        ProbeMTU(now);
      } else {
        NothingTaken(old(pm.Model()), f, now);
      }
    }

    /** The next path-MTU probe, when the search wants one. */
    method ProbeMTU(now: int)
      modifies this, pm, mtu
      ensures Model() == ProbeMtu(old(Model()), now)
    {
      hide PathMtu.NextProbe;
      if cc.firstRttSample { return; }
      var size := mtu.ProbeNow(now);
      if size == 0 { return; }
      var s := pm.NextSequence();
      var frame := MtuProbe(size - hdr);
      var total := hdr + FrameLen(frame);
      pm.SendPacket(SentPacket(nextRef, s, now, total, false, [frame], 0, true), now);
      probes := probes[s := total];
      nextRef := nextRef + 1;
    }

    // ----- The probe timeout -----

    /** Pieces out again, outside the window but drawn from the pacer. */
    method ProbeAll(pieces: seq<SentPacket>, now: int)
      modifies this, pm, cc, cc.pacer
      ensures Model() == Probe(old(Model()), pieces, now)
    {
      hide ProbeWith, Model;
      for i := 0 to |pieces|
        invariant Model() == Probe(old(Model()), pieces[..i], now)
      {
        assert pieces[..i + 1][..i] == pieces[..i];
        ProbePiece(pieces[i], now);
      }
      assert pieces[..|pieces|] == pieces;
    }

    method ProbePiece(p: SentPacket, now: int)
      modifies this, pm, cc, cc.pacer
      ensures Model() == ProbeWith(old(Model()), p, now)
    {
      hide Retransmit, Pacing.OnSent;
      ResendAlone(Model(), p, now);
      var ok := ResendData(p, now);
      if ok { cc.pacer.Draw(p.size, now); }
    }

    method ProbePacket(p: SentPacket, now: int)
      modifies this, pm, cc, cc.pacer
      ensures Model() == ProbeOne(old(Model()), p, now)
    {
      ghost var c := Model();
      NoSplit(c, p);
      ProbeSingle(c, p, now);
      hide MustSplit, Split, Pieces, Probe, ProbeWith;
      var pieces := FitToPath(p);
      if |pieces| > 1 {
        log := log.(unbooked := c.log.unbooked + ExtraHeaders(|pieces| - 1, hdr + STREAM_FRAME_HEADER));
      }
      ProbeAll(pieces, now);
    }

    method OnPTO(now: int)
      requires Keyed(pm.Model())
      modifies this, pm, cc, cc.pacer, mtu
      ensures Model() == OnPto(old(Model()), now)
    {
      hide ProbeOne, Oldest, PathMtu.Blackhole;
      if cc.ptoCount >= PathMtu.BLACKHOLE_PTOS { mtu.FallBack(now); }
      var ps := pm.OldestUnacked(PTO_PROBES);
      ProbeOldest(ps, now);
    }

    method ProbeOldest(ps: seq<SentPacket>, now: int)
      modifies this, pm, cc, cc.pacer
      ensures Model() == ProbeEach(old(Model()), ps, now)
    {
      hide ProbeOne, Model;
      for i := 0 to |ps|
        invariant Model() == ProbeEach(old(Model()), ps[..i], now)
      {
        assert ps[..i + 1][..i] == ps[..i];
        ProbePacket(ps[i], now);
      }
      assert ps[..|ps|] == ps;
    }

    method PtoFired(now: int)
      requires Keyed(pm.Model())
      modifies this, pm, cc, cc.pacer, mtu
      ensures Model() == PtoFires(old(Model()), now)
    {
      hide OnPto, Congestion.PtoExpired, Congestion.PtoRearmed;
      cc.ExpirePto();
      OnPTO(now);
      cc.RearmPto(now);
    }
  }

  /** A split yields several pieces, and only a packet too large is split. */
  lemma NoSplit(c: Conn, p: SentPacket)
    ensures MustSplit(c, p) ==>
              p.size > c.mtu.current && |Pieces(c, p)| > 1 && Split(c, p).queue == c.queue && Split(c, p).mtu == c.mtu
  {
    if MustSplit(c, p) { PiecesFit(c, p); }
  }

  lemma ResendAlone(c: Conn, p: SentPacket, now: int)
    ensures match Retransmit(c, p, now)
            case None => true
            case Some(c') => c'.queue == c.queue && c'.mtu == c.mtu && c'.cc == c.cc
  {
  }

  lemma {:induction false} DataHasNoProbes(ps: seq<SentPacket>)
    ensures forall p <- DataOnly(ps) :: !p.probe
  {
    if ps != [] { DataHasNoProbes(ps[..|ps| - 1]); }
  }

  /** Packets only leave the map, so it stays keyed. */
  lemma AckKeyed(m: Manager, f: AckFrame, now: int)
    requires Keyed(m)
    ensures Keyed(HandleAck(m, f, now).0)
  {
    TakeAllIsExact(m.sent, Expand(f));
    hide Expand;
    var m' := HandleAck(m, f, now).0;
    forall s, t | s in m'.sent && t in m'.sent ensures OneEntry(m'.sent, s, t) { assert OneEntry(m.sent, s, t); }
  }

  lemma AckBookedManager(c: Conn, f: AckFrame, acked: seq<SentPacket>, now: int, target: int)
    ensures AckBooked(c, f, acked, now, target).pm == c.pm
  {
  }

  lemma ProbeSingle(c: Conn, p: SentPacket, now: int)
    ensures Probe(c, [p], now) == ProbeWith(c, p, now)
  {
    hide ProbeWith;
    assert [p][..0] == [];
  }

  lemma FlushNone(c: Conn, now: int)
    ensures c.queue == [] ==> Flush(c, now) == c
  {
  }

  lemma SendOneMore(c: Conn, stream: nat, done: seq<StreamFrame>, f: StreamFrame, now: int)
    ensures SendAll(c, stream, done + [f], now) == SendData(SendAll(c, stream, done, now), stream, f, true, now)
  {
    hide SendData;
    assert (done + [f])[..|done|] == done;
  }

  lemma OversizedTail(q: seq<SentPacket>, limit: nat)
    requires q != []
    ensures Oversized(q[1..], limit) <= Oversized(q, limit)
  {
  }

  lemma FlushIs(c: Conn, now: int)
    requires c.queue != []
    ensures var p, rest := c.queue[0], c.queue[1..];
            Flush(c, now) ==
            if p.isAcked then Flush(c.(queue := rest), now)
            else if MustSplit(c, p) then Flush(Split(c, p).(queue := Pieces(c, p) + rest), now)
            else if Pacing.TimeUntilSend(c.cc.pacer, now) > 0
            then c.(lostTimer := Some(now + Pacing.TimeUntilSend(c.cc.pacer, now)))
            else if !Congestion.CanSend(c.cc, p.size) then c
            else match Retransmit(c.(queue := rest), p, now)
              case None => Flush(c.(queue := rest), now)
              case Some(c2) => Flush(Booked(c2, p.size, now), now)
  {
    hide Split, Pieces, MustSplit, Retransmit, Booked, Pacing.TimeUntilSend;
  }
}
