/** What the steps of the sending half leave alone: only a write adds to what is written,
    only loss and ACKs move the window, and only an acknowledged probe raises the size
    found for the path. */
module Unmoved {
  import opened Frames
  import opened Packets
  import opened Sending
  import opened Recovery
  import opened Runs
  import Congestion
  import Pacing
  import PathMtu
  import Streams

  /** Written data, probes, path-MTU search, window, recovery epoch and RTT are as they
      were. */
  predicate Same(c: Conn, c': Conn) {
    && c'.log.written == c.log.written && c'.probes == c.probes && c'.mtu == c.mtu && c'.hdr == c.hdr
    && c'.cc.cwnd == c.cc.cwnd && c'.cc.inRecovery == c.cc.inRecovery && c'.cc.recoveryEndSeq == c.cc.recoveryEndSeq
    && c'.cc.ssthresh == c.cc.ssthresh && Congestion.SameRtt(c.cc, c'.cc)
  }

  lemma SplitSame(c: Conn, p: SentPacket)
    requires MustSplit(c, p)
    ensures Same(c, Split(c, p)) && Same(c, SplitUnbooked(c, p))
  {
    hide PieceFrames, PieceSpans;
  }

  lemma ResentSame(c: Conn, p: SentPacket, now: int)
    ensures Retransmit(c, p, now).Some? ==> Same(c, Booked(Retransmit(c, p, now).value, p.size, now))
    ensures Retransmit(c, p, now).Some? ==> Booked(Retransmit(c, p, now).value, p.size, now).queue == c.queue
    ensures Same(c, ProbeWith(c, p, now))
  {
    hide Congestion.NextPto, Pacing.OnSent;
  }

  lemma {:induction false} FlushSame(c: Conn, now: int)
    ensures Same(c, Flush(c, now))
    decreases Oversized(c.queue, c.mtu.current), |c.queue|
  {
    hide Split, Pieces, MustSplit, Retransmit, Booked, Congestion.CanSend, Pacing.TimeUntilSend;
    if c.queue != [] {
      var p, rest := c.queue[0], c.queue[1..];
      assert c.queue == [p] + rest;
      if p.isAcked {
        FlushSame(c.(queue := rest), now);
      } else if MustSplit(c, p) {
        SplitShrinks(c, p, rest);
        SplitSame(c, p);
        FlushSame(Split(c, p).(queue := Pieces(c, p) + rest), now);
      } else if Pacing.TimeUntilSend(c.cc.pacer, now) <= 0 && Congestion.CanSend(c.cc, p.size) {
        var c1 := c.(queue := rest);
        ResentSame(c1, p, now);
        match Retransmit(c1, p, now)
        case None => FlushSame(c1, now);
        case Some(c2) => FlushSame(Booked(c2, p.size, now), now);
      }
    }
  }

  lemma {:induction false} ProbeSame(c: Conn, ps: seq<SentPacket>, now: int)
    ensures Same(c, Probe(c, ps, now))
  {
    hide ProbeWith;
    if ps != [] {
      ProbeSame(c, ps[..|ps| - 1], now);
      ResentSame(Probe(c, ps[..|ps| - 1], now), ps[|ps| - 1], now);
    }
  }

  lemma {:induction false} ProbeEachSame(c: Conn, ps: seq<SentPacket>, now: int)
    ensures Same(c, ProbeEach(c, ps, now))
  {
    hide ProbeWith, Probe, SplitUnbooked, Pieces, MustSplit;
    if ps != [] {
      var c1, p := ProbeEach(c, ps[..|ps| - 1], now), ps[|ps| - 1];
      ProbeEachSame(c, ps[..|ps| - 1], now);
      if MustSplit(c1, p) {
        SplitSame(c1, p);
        ProbeSame(SplitUnbooked(c1, p), Pieces(c1, p), now);
      } else {
        ResentSame(c1, p, now);
      }
    }
  }

  /** A probe timeout changes at most the search, which it may set back. */
  lemma PtoSame(c: Conn, now: int)
    ensures var c' := PtoFires(c, now);
            Same(c.(mtu := c'.mtu), c') && (c'.mtu == c.mtu || c'.mtu.current == SAFE_DATAGRAM_SIZE)
  {
    var c0 := c.(cc := Congestion.PtoExpired(c.cc));
    OnPtoIs(c0, now);
    ProbeEachSame(AtPto(c0, now), Oldest(AtPto(c0, now).pm, PTO_PROBES), now);
    hide OnPto, ProbeEach, Oldest, Congestion.NextPto;
  }

  /** Loss detection takes no RTT sample, and only ever contracts the window. */
  lemma DetectContracts(c: Conn, now: int)
    ensures var c' := DetectLost(c, now);
            && Congestion.SameRtt(c.cc, c'.cc) && (c.cc.cwnd >= MIN_CWND ==> MIN_CWND <= c'.cc.cwnd <= c.cc.cwnd)
  {
    var (pm, lost) := Detect(c.pm, now, LossDelay(c.cc.smoothedRtt, c.cc.latestRtt));
    var c1 := c.(pm := pm, mtu := MtuAfterLoss(c.mtu, lost, !c.ackedLarge, now));
    hide Detect, LossDelay, Flush, DataOnly, MtuAfterLoss;
    if lost != [] && DataOnly(lost) != [] {
      FlushSame(Queued(c1, DataOnly(lost)).(lostTimer := None), now);
      LossSamples(c.cc, DataOnly(lost), c1.pm.lastSentSeq, c1.pm.ackBeforeLoss);
    }
    hide CcAfterLoss;
  }

  lemma LossSamples(cc: Congestion.Controller, data: seq<SentPacket>, last: int, before: Option<int>)
    requires data != []
    ensures var cc' := CcAfterLoss(cc, data, last, before);
            && Congestion.SameRtt(cc, cc') && (cc.cwnd >= MIN_CWND ==> MIN_CWND <= cc'.cwnd <= cc.cwnd)
            && cc'.inflight == Max(cc.inflight - DataSize(data), 0)
  {
    hide Pacing.UpdateRate, Congestion.Pto, DataSize;
  }

  // ----- What is written -----

  /** Every stream has the same bytes written. */
  ghost predicate SameWritten(c: Conn, c': Conn) { forall t :: Written(c', t) == Written(c, t) }

  lemma SameMeans(c: Conn, c': Conn)
    requires c'.log.written == c.log.written
    ensures SameWritten(c, c')
  {
  }

  lemma DetectWritten(c: Conn, now: int)
    ensures DetectLost(c, now).log.written == c.log.written && DetectLost(c, now).probes == c.probes
  {
    var (pm, lost) := Detect(c.pm, now, LossDelay(c.cc.smoothedRtt, c.cc.latestRtt));
    var c1 := c.(pm := pm, mtu := MtuAfterLoss(c.mtu, lost, !c.ackedLarge, now));
    if lost != [] && DataOnly(lost) != [] { FlushSame(Queued(c1, DataOnly(lost)).(lostTimer := None), now); }
    hide Detect, LossDelay, Flush, DataOnly, CcAfterLoss, MtuAfterLoss;
  }

  lemma AckWritten(c: Conn, f: AckFrame, now: int, target: int)
    ensures HandleAckFrame(c, f, now, target).log.written == c.log.written
  {
    HandleAckIs(c, f, now, target);
    var c1 := AckTaken(c, f, now, target);
    assert c1.log.written == c.log.written by { hide HandleAck, DataRefs, MtuAfterAck, Congestion.OnPacketAcked; }
    hide *;
    DetectWritten(c1, now);
    var c2 := DetectLost(c1, now);
    FlushLostSame(c2, now);
    ProbeMtuWritten(FlushLost(c2, now), now);
  }

  lemma FlushLostSame(c: Conn, now: int)
    ensures Same(c, FlushLost(c, now)) && FlushLost(c, now).log.written == c.log.written
    ensures FlushLost(c, now).mtu == c.mtu
  {
    FlushLostIs(c, now);
    FlushSame(c.(lostTimer := None), now);
    hide Flush, FlushLost;
  }

  lemma ProbeMtuWritten(c: Conn, now: int)
    ensures ProbeMtu(c, now).log == c.log
  {
    hide PathMtu.NextProbe;
  }

  lemma FinishWritten(c: Conn, stream: nat, now: int)
    ensures SameWritten(c, Finish(c, stream, now))
  {
    var f := StreamFrame(true, false, |Written(c, stream)|, []);
    SentWritten(c.(log := c.log.(finished := c.log.finished + {stream})), stream, f, false, now);
    assert forall s: seq<byte> :: s + [] == s;
    hide SendData;
  }

  /** Only a write changes what is written. */
  lemma StepWritten(c: Conn, step: Step)
    requires Possible(c, step) && !step.Writes?
    ensures SameWritten(c, Apply(c, step))
  {
    hide SameWritten, HandleAckFrame, DetectLost, FlushLost, PtoFires, Finish;
    match step
    case Closes(stream, now) => FinishWritten(c, stream, now);
    case Acks(f, now, target) => AckWritten(c, f, now, target); SameMeans(c, Apply(c, step));
    case LossTimer(now) => DetectWritten(ForTimer(c), now); SameMeans(c, Apply(c, step));
    case LostTimer(now) => FlushLostSame(c, now); SameMeans(c, Apply(c, step));
    case Pto(now) => PtoSame(c, now); SameMeans(c, Apply(c, step));
  }

  // ----- The size found for the path -----

  lemma {:induction false} LossNeverRaises(m: PathMtu.Search, lost: seq<SentPacket>, countLarge: bool, now: int)
    ensures var m' := MtuAfterLoss(m, lost, countLarge, now);
            m'.current <= m.current || m'.current == SAFE_DATAGRAM_SIZE
  {
    if lost != [] { LossNeverRaises(m, lost[..|lost| - 1], countLarge, now); }
  }

  lemma {:induction false} AckRaisesTo(m: PathMtu.Search, acked: seq<SentPacket>, path: nat)
    requires m.current <= path && forall p <- acked :: p.probe ==> p.size <= path
    ensures MtuAfterAck(m, acked).current <= path
  {
    if acked != [] {
      assert acked[|acked| - 1] in acked;
      AckRaisesTo(m, acked[..|acked| - 1], path);
    }
  }

  lemma DetectNeverRaises(c: Conn, now: int)
    ensures var c' := DetectLost(c, now); c'.mtu.current <= c.mtu.current || c'.mtu.current == SAFE_DATAGRAM_SIZE
  {
    var (pm, lost) := Detect(c.pm, now, LossDelay(c.cc.smoothedRtt, c.cc.latestRtt));
    var c1 := c.(pm := pm, mtu := MtuAfterLoss(c.mtu, lost, !c.ackedLarge, now));
    LossNeverRaises(c.mtu, lost, !c.ackedLarge, now);
    if lost != [] && DataOnly(lost) != [] { FlushSame(Queued(c1, DataOnly(lost)).(lostTimer := None), now); }
    hide Detect, LossDelay, Flush, DataOnly, CcAfterLoss, MtuAfterLoss;
  }

  lemma ProbeMtuNeverRaises(c: Conn, now: int)
    ensures ProbeMtu(c, now).mtu.current == c.mtu.current
  {
  }

  lemma {:induction false} SendAllMtu(c: Conn, stream: nat, fs: seq<StreamFrame>, now: int)
    ensures SendAll(c, stream, fs, now).mtu == c.mtu
  {
    if fs != [] {
      SendAllMtu(c, stream, fs[..|fs| - 1], now);
      hide Congestion.OnPacketSent, Pacing.OnSent;
    }
  }

  /** The frame names no tracked probe larger than `path`. */
  ghost predicate NamesWithin(c: Conn, f: AckFrame, path: nat) {
    forall s <- c.pm.sent :: c.pm.sent[s].probe && s in Expand(f) ==> c.pm.sent[s].size <= path
  }

  lemma AckRaises(c: Conn, f: AckFrame, now: int, target: int, path: nat)
    requires c.mtu.current <= path && SAFE_DATAGRAM_SIZE <= path && NamesWithin(c, f, path)
    ensures HandleAckFrame(c, f, now, target).mtu.current <= path
  {
    TakenRaises(c, f, now, target, path);
    hide *;
    HandleAckIs(c, f, now, target);
    var c1 := AckTaken(c, f, now, target);
    var c2 := DetectLost(c1, now);
    DetectNeverRaises(c1, now);
    FlushLostSame(c2, now);
    ProbeMtuNeverRaises(FlushLost(c2, now), now);
  }

  lemma TakenRaises(c: Conn, f: AckFrame, now: int, target: int, path: nat)
    requires c.mtu.current <= path && NamesWithin(c, f, path)
    ensures AckTaken(c, f, now, target).mtu.current <= path
  {
    TakeAllIsExact(c.pm.sent, Expand(f));
    hide Expand, TakeAll, MtuAfterAck;
    var acked := HandleAck(c.pm, f, now).1;
    forall p | p in acked && p.probe ensures p.size <= path {
      var s :| s in c.pm.sent && s in Expand(f) && p == c.pm.sent[s].(isAcked := true);
    }
    AckRaisesTo(c.mtu, acked, path);
  }

  /** Only an ACK can raise the size, and no further than the probes it names. */
  lemma StepRaises(c: Conn, step: Step, path: nat)
    requires Possible(c, step) && c.mtu.current <= path && SAFE_DATAGRAM_SIZE <= path
    requires step.Acks? ==> NamesWithin(c, step.frame, path)
    ensures Apply(c, step).mtu.current <= path
  {
    hide HandleAckFrame, DetectLost, FlushLost, PtoFires, SendAll, Streams.Chunks, NamesWithin;
    match step
    case Writes(stream, data, chunk, isSyn, now) =>
      SendAllMtu(c, stream, Streams.Chunks(|Written(c, stream)|, data, chunk, isSyn, false), now);
    case Closes(stream, now) => hide Congestion.OnPacketSent;
    case Acks(f, now, target) => AckRaises(c, f, now, target, path);
    case LossTimer(now) => DetectNeverRaises(ForTimer(c), now);
    case LostTimer(now) => FlushLostSame(c, now);
    case Pto(now) => PtoSame(c, now);
  }
}
