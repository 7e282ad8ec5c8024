/** What an ACK and a probe timeout do to the connection, in its own fields: the packet an
    RTT sample is taken from, what the window and the path-MTU search make of what was
    acknowledged or lost, and which packets go out again. */
module Outcomes {
  import opened Frames
  import opened Packets
  import opened Sending
  import opened Custody
  import opened Recovery
  import opened Runs
  import opened Unmoved
  import Congestion
  import PathMtu

  // ----- The packet the RTT is measured from -----

  /** The frame newly acknowledges the sequence. */
  ghost predicate NewlyNamed(c: Conn, f: AckFrame, s: nat) { s in c.pm.sent && s in Expand(f) }

  lemma {:induction false} SampleFrom(acked: seq<SentPacket>, largest: nat)
    ensures var r := LargestSample(acked, largest);
            && (r.Some? <==> exists p :: p in acked && p.sequence == largest)
            && (r.Some? ==> exists p :: p in acked && p.sequence == largest && r.value == p.sentTime)
  {
    if acked != [] {
      var init, last := acked[..|acked| - 1], acked[|acked| - 1];
      assert acked == init + [last];
      SampleFrom(init, largest);
      assert last in acked && forall p :: p in acked <==> p in init || p == last;
    }
  }

  lemma TakenSample(sent: map<nat, SentPacket>, seqs: seq<nat>, largest: nat)
    requires forall s <- sent :: sent[s].sequence == s
    ensures LargestSample(TakeAll(sent, seqs).1, largest) ==
            if largest in sent && largest in seqs then Some(sent[largest].sentTime) else None
  {
    TakeAllIsExact(sent, seqs);
    var acked := TakeAll(sent, seqs).1;
    SampleFrom(acked, largest);
    hide TakeAll, LargestSample;
    if largest in sent && largest in seqs {
      assert sent[largest].(isAcked := true) in acked;
    }
    if p :| p in acked && p.sequence == largest {
      var s :| s in sent && s in seqs && p == sent[s].(isAcked := true);
    }
  }

  /** The RTT estimates and the window once the ACK is booked, before loss detection. */
  lemma BookedSample(c: Conn, f: AckFrame, now: int, target: int)
    requires Keyed(c.pm) && HandleAck(c.pm, f, now).1 != []
    ensures var cc' := AckTaken(c, f, now, target).cc;
            var sample := if NewlyNamed(c, f, f.largestAcked) then Some(c.pm.sent[f.largestAcked].sentTime) else None;
            cc' == Congestion.OnPacketAcked(c.cc, DataSize(HandleAck(c.pm, f, now).1), sample,
                                            f.ackDelay * MILLISECOND, f.largestAcked, now, target)
  {
    TakenSample(c.pm.sent, Expand(f), f.largestAcked);
    hide Expand, TakeAll, LargestSample, DataSize, MtuAfterAck, DataRefs, Congestion.OnPacketAcked;
  }

  /** Section 5.1 of RFC 9002: the RTT is measured from the packet whose sequence is the
      frame's largest, and from no other. If the frame does not newly acknowledge that
      packet, no estimate moves and the window does not grow. */
  lemma RttFromTheLargest(c: Conn, f: AckFrame, now: int, target: int)
    requires Keyed(c.pm)
    ensures var c' := HandleAckFrame(c, f, now, target);
            && (NewlyNamed(c, f, f.largestAcked) ==>
                  var sentTime := c.pm.sent[f.largestAcked].sentTime;
                  Congestion.SameRtt(Congestion.UpdateRtt(c.cc, sentTime, f.ackDelay * MILLISECOND, now), c'.cc))
            && (!NewlyNamed(c, f, f.largestAcked) ==>
                  Congestion.SameRtt(c.cc, c'.cc) && (c.cc.cwnd >= MIN_CWND ==> c'.cc.cwnd <= c.cc.cwnd))
  {
    var sample := if NewlyNamed(c, f, f.largestAcked) then Some(c.pm.sent[f.largestAcked].sentTime) else None;
    hide *;
    HandleAckIs(c, f, now, target);
    NamedTaken(c, f, now);
    if HandleAck(c.pm, f, now).1 == [] {
      RttRefl(c.cc);
    } else {
      var c1 := AckTaken(c, f, now, target);
      BookedSample(c, f, now, target);
      var bytes := DataSize(HandleAck(c.pm, f, now).1);
      Congestion.AckSamplesRtt(c.cc, bytes, sample, f.ackDelay * MILLISECOND, f.largestAcked, now, target);
      Congestion.AckGrows(c.cc, bytes, sample, f.ackDelay * MILLISECOND, f.largestAcked, now, target);
      RestOfAck(c1, now);
      var from := if sample.None? then c.cc
                  else Congestion.UpdateRtt(c.cc, sample.value, f.ackDelay * MILLISECOND, now);
      RttTrans(from, c1.cc, HandleAckFrame(c, f, now, target).cc);
    }
  }

  /** The first sample is the time since the frame's largest was sent. */
  lemma FirstSample(c: Conn, f: AckFrame, now: int, target: int)
    requires Keyed(c.pm) && NewlyNamed(c, f, f.largestAcked) && c.cc.firstRttSample
    requires c.pm.sent[f.largestAcked].sentTime <= now
    ensures var (c', rtt) := (HandleAckFrame(c, f, now, target), now - c.pm.sent[f.largestAcked].sentTime);
            && !c'.cc.firstRttSample && c'.cc.smoothedRtt == c'.cc.latestRtt == c'.cc.minRtt == rtt
            && c'.cc.rttVar == rtt / 2
  {
    RttFromTheLargest(c, f, now, target);
    hide HandleAckFrame, Expand;
    Congestion.RttSampleSound(c.cc, c.pm.sent[f.largestAcked].sentTime, f.ackDelay * MILLISECOND, now);
  }

  lemma NamedTaken(c: Conn, f: AckFrame, now: int)
    ensures NewlyNamed(c, f, f.largestAcked) ==> HandleAck(c.pm, f, now).1 != []
  {
    TakeAllIsExact(c.pm.sent, Expand(f));
    hide Expand, TakeAll;
  }

  /** What follows the booking of an ACK takes no sample and lets the window only shrink. */
  lemma RestOfAck(c: Conn, now: int)
    ensures var c' := ProbeMtu(FlushLost(DetectLost(c, now), now), now);
            Congestion.SameRtt(c.cc, c'.cc) && (c.cc.cwnd >= MIN_CWND ==> c'.cc.cwnd <= c.cc.cwnd)
  {
    hide *;
    DetectContracts(c, now);
    var c1 := DetectLost(c, now);
    FlushLostSame(c1, now);
    SameWindow(c1, FlushLost(c1, now));
    ProbeMtuWindow(FlushLost(c1, now), now);
    RttTrans(c.cc, c1.cc, FlushLost(c1, now).cc);
  }

  lemma SameWindow(c: Conn, c': Conn)
    requires Same(c, c')
    ensures Congestion.SameRtt(c.cc, c'.cc) && c'.cc.cwnd == c.cc.cwnd && c'.cc.inRecovery == c.cc.inRecovery
  {
  }

  lemma ProbeMtuWindow(c: Conn, now: int)
    ensures ProbeMtu(c, now).cc == c.cc && ProbeMtu(c, now).queue == c.queue
    ensures ProbeMtu(c, now).lostTimer == c.lostTimer
  {
    hide PathMtu.NextProbe;
  }

  lemma RttRefl(a: Congestion.Controller)
    ensures Congestion.SameRtt(a, a)
  {
  }

  lemma RttTrans(a: Congestion.Controller, b: Congestion.Controller, c: Congestion.Controller)
    requires Congestion.SameRtt(a, b) && Congestion.SameRtt(b, c)
    ensures Congestion.SameRtt(a, c)
  {
  }

  // ----- What the window makes of an ACK -----

  /** Booking an ACK in slow start, outside recovery: the window grows by exactly what
      leaves flight, which is what the frame newly acknowledges of the data. */
  lemma SlowStartByTheFlight(c: Conn, f: AckFrame, now: int, target: int)
    requires Rest(c) && NewlyNamed(c, f, f.largestAcked) && c.log.unbooked == 0
    requires c.cc.cwnd < c.cc.ssthresh && (!c.cc.inRecovery || f.largestAcked > c.cc.recoveryEndSeq)
    ensures var c1 := AckTaken(c, f, now, target);
            && c1.cc.cwnd - c.cc.cwnd == c.cc.inflight - c1.cc.inflight == Total(c.pm.sent) - Total(c1.pm.sent)
            && c1.pm.sent == (map s | s in c.pm.sent && s !in Expand(f) :: c.pm.sent[s])
  {
    TakenDown(c, f, now);
    var acked := HandleAck(c.pm, f, now).1;
    NamedTaken(c, f, now);
    RestBooks(c);
    BookedManager(c, f, now, target);
    BookedSample(c, f, now, target);
    hide *;
    Congestion.AckGrows(c.cc, DataSize(acked), Some(c.pm.sent[f.largestAcked].sentTime), f.ackDelay * MILLISECOND,
                        f.largestAcked, now, target);
  }

  lemma RestBooks(c: Conn)
    requires Rest(c)
    ensures Keyed(c.pm)
    ensures c.log.unbooked == 0 ==> c.cc.inflight == Total(c.pm.sent)
  {
    SoundKeyed(c);
    hide Sound;
  }

  /** What an ACK takes, weighed. */
  lemma TakenDown(c: Conn, f: AckFrame, now: int)
    requires Keyed(c.pm)
    ensures var (m, acked) := HandleAck(c.pm, f, now);
            && Total(c.pm.sent) == Total(m.sent) + DataSize(acked)
            && m.sent == (map s | s in c.pm.sent && s !in Expand(f) :: c.pm.sent[s])
  {
    TakenSize(c.pm.sent, Expand(f));
    TakeAllIsExact(c.pm.sent, Expand(f));
    NothingTaken(c.pm, f, now);
    TakeNothingTaken(c.pm, f);
    hide Expand, TakeAll, Total, DataSize;
  }

  lemma TakeNothingTaken(m: Manager, f: AckFrame)
    ensures TakeAll(m.sent, Expand(f)).1 == [] ==> TakeAll(m.sent, Expand(f)).0 == m.sent
  {
    if TakeAll(m.sent, Expand(f)).1 == [] { TakeNothing(m.sent, Expand(f)); }
  }

  /** What an ACK that takes something leaves on record: when it came, when the one before
      it did, and the largest sequence either named. */
  lemma AckRecorded(m: Manager, f: AckFrame, now: int)
    ensures var (m', acked) := HandleAck(m, f, now);
            && (acked == [] ==> m' == m)
            && (acked != [] ==>
                  && m'.lastAckTime == Some(now) && m'.ackBeforeLoss == m.lastAckTime
                  && m'.largestAcked == Max(m.largestAcked, f.largestAcked) && m'.nextSeq == m.nextSeq)
  {
    hide Expand, TakeAll;
  }

  // ----- Persistent congestion -----

  lemma DetectPersists(c: Conn, now: int)
    ensures var data := DataOnly(Detect(c.pm, now, LossDelay(c.cc.smoothedRtt, c.cc.latestRtt)).1);
            data != [] ==>
              var cc' := DetectLost(c, now).cc;
              && (cc'.inRecovery <==> !LossPersists(c.cc, data, c.pm.ackBeforeLoss))
              && (LossPersists(c.cc, data, c.pm.ackBeforeLoss) ==> cc'.cwnd == MIN_CWND)
  {
    var (pm, lost) := Detect(c.pm, now, LossDelay(c.cc.smoothedRtt, c.cc.latestRtt));
    var c1 := c.(pm := pm, mtu := MtuAfterLoss(c.mtu, lost, !c.ackedLarge, now));
    assert pm.ackBeforeLoss == c.pm.ackBeforeLoss;
    hide Detect, LossDelay, Flush, DataOnly, MtuAfterLoss, LossPersists, CcAfterLoss;
    if lost != [] && DataOnly(lost) != [] {
      FlushSame(Queued(c1, DataOnly(lost)).(lostTimer := None), now);
      CollapsesExactly(c.cc, DataOnly(lost), pm.lastSentSeq, pm.ackBeforeLoss);
    }
    NoneLost();
  }

  lemma NoneLost()
    ensures DataOnly([]) == []
  {
  }

  /** Section 7.6.2 of RFC 9002, when the loss timer finds data lost: the window collapses
      exactly when an RTT is known, the loss spans three probe timeouts, and no ACK took
      anything since the oldest of it went out. */
  lemma TimerPersists(c: Conn, now: int)
    ensures var data := DataOnly(Detect(c.pm, now, LossDelay(c.cc.smoothedRtt, c.cc.latestRtt)).1);
            data != [] ==>
              var cc' := LossTimerFires(c, now).cc;
              && (cc'.inRecovery <==> !LossPersists(c.cc, data, c.pm.lastAckTime))
              && (LossPersists(c.cc, data, c.pm.lastAckTime) ==> cc'.cwnd == MIN_CWND)
  {
    var c0 := c.(pm := c.pm.(ackBeforeLoss := c.pm.lastAckTime));
    DetectPersists(c0, now);
    SameLost(c.pm, c0.pm, now, LossDelay(c.cc.smoothedRtt, c.cc.latestRtt));
    hide Detect, LossDelay, DataOnly, LossPersists, DetectLost;
  }

  lemma SameLost(m: Manager, m': Manager, now: int, delay: int)
    requires m'.sent == m.sent && m'.largestAcked == m.largestAcked
    ensures Detect(m', now, delay).1 == Detect(m, now, delay).1
  {
    assert LostKeys(m', now, delay) == LostKeys(m, now, delay);
  }

  /** When an ACK finds it, no ACK before this one did. */
  lemma AckPersists(c: Conn, f: AckFrame, now: int, target: int)
    requires HandleAck(c.pm, f, now).1 != []
    ensures var c1 := AckTaken(c, f, now, target);
            var data := DataOnly(Detect(c1.pm, now, LossDelay(c1.cc.smoothedRtt, c1.cc.latestRtt)).1);
            data != [] ==>
              var cc' := HandleAckFrame(c, f, now, target).cc;
              && (cc'.inRecovery <==> !LossPersists(c1.cc, data, c.pm.lastAckTime))
              && (LossPersists(c1.cc, data, c.pm.lastAckTime) ==> cc'.cwnd == MIN_CWND)
  {
    hide *;
    var c1 := AckTaken(c, f, now, target);
    HandleAckIs(c, f, now, target);
    BookedManager(c, f, now, target);
    AckRecorded(c.pm, f, now);
    DetectPersists(c1, now);
    var c2 := DetectLost(c1, now);
    FlushLostSame(c2, now);
    SameWindow(c2, FlushLost(c2, now));
    ProbeMtuWindow(FlushLost(c2, now), now);
  }

  // ----- What the path-MTU search makes of it -----

  /** A packet that only a path above the base size carries. */
  predicate Large(p: SentPacket) { !p.probe && p.size > SAFE_DATAGRAM_SIZE }

  function LargeCount(ps: seq<SentPacket>): nat {
    if ps == [] then 0 else LargeCount(ps[..|ps| - 1]) + if Large(ps[|ps| - 1]) then 1 else 0
  }

  /** Losses of data give the path up when they bring the large ones to three; when an ACK
      has just taken a large packet they count for nothing. */
  lemma {:induction false} LossesCounted(m: PathMtu.Search, lost: seq<SentPacket>, now: int)
    requires m.current > SAFE_DATAGRAM_SIZE && m.largeLost < 3 && forall p <- lost :: !p.probe
    ensures var m' := MtuAfterLoss(m, lost, true, now);
            && (m.largeLost + LargeCount(lost) < 3 ==> m' == m.(largeLost := m.largeLost + LargeCount(lost)))
            && (m.largeLost + LargeCount(lost) >= 3 ==>
                  m'.current == SAFE_DATAGRAM_SIZE && m'.retryAt == Some(now + 60 * SECOND))
    ensures MtuAfterLoss(m, lost, false, now) == m
  {
    if lost != [] {
      var init, p := lost[..|lost| - 1], lost[|lost| - 1];
      assert p in lost && forall q :: q in init ==> q in lost;
      LossesCounted(m, init, now);
      if m.largeLost + LargeCount(init) < 3 {
        PathMtu.RetryInAMinute(MtuAfterLoss(m, init, true, now), p.size, now);
      }
    }
  }

  /** Loss detection on a path above the base size, when no probe is lost with the data. */
  lemma DetectionGivesUp(c: Conn, now: int)
    requires c.mtu.current > SAFE_DATAGRAM_SIZE && c.mtu.largeLost < 3
    ensures var lost := Detect(c.pm, now, LossDelay(c.cc.smoothedRtt, c.cc.latestRtt)).1;
            var mtu := DetectLost(c, now).mtu;
            (forall p <- lost :: !p.probe) ==>
              && (c.ackedLarge || LargeCount(lost) == 0 ==> mtu == c.mtu)
              && (!c.ackedLarge && c.mtu.largeLost + LargeCount(lost) < 3 ==> mtu.current == c.mtu.current)
              && (!c.ackedLarge && c.mtu.largeLost + LargeCount(lost) >= 3 ==>
                    mtu.current == SAFE_DATAGRAM_SIZE && mtu.retryAt == Some(now + 60 * SECOND))
  {
    var lost := Detect(c.pm, now, LossDelay(c.cc.smoothedRtt, c.cc.latestRtt)).1;
    DetectMtu(c, now);
    if forall p <- lost :: !p.probe { LossesCounted(c.mtu, lost, now); }
    hide Detect, LossDelay, DetectLost, MtuAfterLoss, LargeCount;
  }

  lemma DetectMtu(c: Conn, now: int)
    ensures DetectLost(c, now).mtu ==
            MtuAfterLoss(c.mtu, Detect(c.pm, now, LossDelay(c.cc.smoothedRtt, c.cc.latestRtt)).1, !c.ackedLarge, now)
  {
    var (pm, lost) := Detect(c.pm, now, LossDelay(c.cc.smoothedRtt, c.cc.latestRtt));
    var c1 := c.(pm := pm, mtu := MtuAfterLoss(c.mtu, lost, !c.ackedLarge, now));
    if lost != [] && DataOnly(lost) != [] { FlushSame(Queued(c1, DataOnly(lost)).(lostTimer := None), now); }
    hide Detect, LossDelay, Flush, DataOnly, CcAfterLoss;
  }

  lemma {:induction false} AckedRaises(m: PathMtu.Search, acked: seq<SentPacket>)
    requires m.retryAt.None?
    ensures var m' := MtuAfterAck(m, acked);
            && m'.retryAt.None? && m'.current >= m.current
            && (forall p <- acked :: p.probe ==> p.size <= m'.current)
            && ((exists p :: p in acked && Large(p)) ==> m'.largeLost == 0)
  {
    if acked != [] {
      var init, last := acked[..|acked| - 1], acked[|acked| - 1];
      assert acked == init + [last];
      AckedRaises(m, init);
      hide MtuAfterAck;
      MtuAckedLast(m, acked);
    }
  }

  lemma MtuAckedLast(m: PathMtu.Search, acked: seq<SentPacket>)
    requires acked != []
    ensures var m1, p := MtuAfterAck(m, acked[..|acked| - 1]), acked[|acked| - 1];
            MtuAfterAck(m, acked) ==
            if p.probe then PathMtu.OnProbeAcked(m1, p.size) else PathMtu.OnDataAcked(m1, p.size)
  {
  }

  /** An ACK that takes a probe makes its size the one in use, and one that takes a large
      data packet clears the count of lost ones and has losses found with it not count. */
  lemma AckRaisesThePath(c: Conn, f: AckFrame, now: int, target: int, s: nat)
    requires c.mtu.retryAt.None? && NewlyNamed(c, f, s)
    ensures var (c1, p) := (AckTaken(c, f, now, target), c.pm.sent[s]);
            && (p.probe ==> c1.mtu.current >= p.size)
            && (Large(p) ==> c1.mtu.largeLost == 0 && c1.ackedLarge)
  {
    TakeAllIsExact(c.pm.sent, Expand(f));
    var acked := TakeAll(c.pm.sent, Expand(f)).1;
    hide Expand, TakeAll, MtuAfterAck, DataSize, LargestSample, DataRefs, Congestion.OnPacketAcked;
    var p := c.pm.sent[s].(isAcked := true);
    assert p in acked;
    AckedRaises(c.mtu, acked);
  }

  /** The third probe timeout in a row gives the path up, and no earlier one does. */
  lemma ThirdTimeoutGivesUp(c: Conn, now: int)
    ensures var m := PtoFires(c, now).mtu;
            && (c.cc.ptoCount >= 2 && c.mtu.current > SAFE_DATAGRAM_SIZE ==>
                  m.current == SAFE_DATAGRAM_SIZE && m.done && m.retryAt == Some(now + 60 * SECOND))
            && (c.cc.ptoCount < 2 || c.mtu.current <= SAFE_DATAGRAM_SIZE ==> m == c.mtu)
  {
    var c0 := c.(cc := Congestion.PtoExpired(c.cc));
    OnPtoIs(c0, now);
    ProbeEachSame(AtPto(c0, now), Oldest(AtPto(c0, now).pm, PTO_PROBES), now);
    hide OnPto, ProbeEach, Oldest, Congestion.NextPto;
  }

  /** From the first RTT sample on, when the search has a size to test, a probe of exactly
      that size goes out under the next sequence, tracked but not booked. Otherwise
      nothing does. */
  lemma ProbeGoesOut(c: Conn, now: int)
    ensures var c' := ProbeMtu(c, now);
            var size := PathMtu.NextProbe(c.mtu, now).1;
            && c'.cc == c.cc && c'.queue == c.queue
            && (c.cc.firstRttSample || size == 0 ==> c'.pm == c.pm && c'.probes == c.probes)
            && (c.cc.firstRttSample ==> c' == c)
            && (!c.cc.firstRttSample && size > c.hdr ==>
                  && c'.mtu.inFlight && c'.mtu.probe == size && c.pm.nextSeq in c'.pm.sent
                  && c'.pm.sent[c.pm.nextSeq].probe && c'.pm.sent[c.pm.nextSeq].size == size
                  && c'.pm.nextSeq == c.pm.nextSeq + 1 && c'.probes == c.probes[c.pm.nextSeq := size])
  {
  }

  // ----- The packets a probe timeout sends again -----

  /** Tracked data below `s`. */
  ghost function Below(m: Manager, s: nat): set<nat> { set t | t in m.sent && !m.sent[t].probe && t < s }

  lemma {:induction false} AscendingCount(r: seq<SentPacket>)
    requires Ascending(r)
    ensures |Sequences(r)| == |r|
  {
    hide *;
    if r == [] {
      NoSequences();
    } else {
      var init, last := r[..|r| - 1], r[|r| - 1];
      AscendingInit(r);
      AscendingCount(init);
      OneMoreSequence(init, last);
      assert r == init + [last];
    }
  }

  lemma NoSequences()
    ensures Sequences([]) == {}
  {
  }

  lemma AscendingInit(r: seq<SentPacket>)
    requires Ascending(r) && r != []
    ensures Ascending(r[..|r| - 1]) && forall p <- r[..|r| - 1] :: p.sequence < r[|r| - 1].sequence
  {
  }

  lemma OneMoreSequence(init: seq<SentPacket>, last: SentPacket)
    ensures Sequences(init + [last]) == Sequences(init) + {last.sequence}
    ensures (forall p <- init :: p.sequence < last.sequence) ==> last.sequence !in Sequences(init)
  {
    var r := init + [last];
    assert forall p :: p in r <==> p in init || p == last;
  }

  lemma {:induction false} Fewer(a: set<nat>, b: set<nat>)
    requires a <= b
    ensures |a| <= |b|
  {
    if a != {} {
      var x :| x in a;
      Fewer(a - {x}, b - {x});
    }
  }

  /** A data packet is among the `n` oldest exactly when fewer than `n` are below it. */
  lemma OldestExactly(m: Manager, n: nat, s: nat)
    requires Keyed(m) && s in m.sent && !m.sent[s].probe
    ensures s in Sequences(Oldest(m, n)) <==> |Below(m, s)| < n
  {
    OldestAreLowest(m, n);
    OldestAllOrFull(m, n);
    hide *;
    var r := Oldest(m, n);
    if m.sent[s] in r {
      var i :| 0 <= i < |r| && r[i] == m.sent[s];
      InOldest(m, r, s, i);
      assert |r| <= n;
    } else {
      NotInOldest(m, r, s);
    }
  }

  lemma InOldest(m: Manager, r: seq<SentPacket>, s: nat, i: nat)
    requires Keyed(m) && s in m.sent && !m.sent[s].probe && Ascending(r) && i < |r| && r[i] == m.sent[s]
    requires forall p <- r :: p.sequence in m.sent && m.sent[p.sequence] == p && !p.probe
    requires forall t <- m.sent :: !m.sent[t].probe && m.sent[t] !in r ==> forall p <- r :: p.sequence < t
    ensures s in Sequences(r) && |Below(m, s)| == i
  {
    var first := r[..i];
    assert r[i] in r && r[i].sequence == s;
    forall t | t in Below(m, s) ensures t in Sequences(first) {
      assert m.sent[t] !in r ==> s < t;
      var j :| 0 <= j < |r| && r[j] == m.sent[t];
      assert j < i;
      assert first[j] == r[j] && r[j] in first;
    }
    forall t | t in Sequences(first) ensures t in Below(m, s) {
      var p :| p in first && p.sequence == t;
      var j :| 0 <= j < |first| && first[j] == p;
      assert r[j] == p && p in r;
    }
    assert Below(m, s) == Sequences(first);
    AscendingCount(first);
  }

  lemma NotInOldest(m: Manager, r: seq<SentPacket>, s: nat)
    requires Keyed(m) && s in m.sent && !m.sent[s].probe && m.sent[s] !in r && Ascending(r)
    requires forall p <- r :: p.sequence in m.sent && m.sent[p.sequence] == p && !p.probe
    requires forall p <- r :: p.sequence < s
    ensures s !in Sequences(r) && |Below(m, s)| >= |r|
  {
    AscendingCount(r);
    assert Sequences(r) <= Below(m, s);
    Fewer(Sequences(r), Below(m, s));
  }

  /** Section 6.2.4 of RFC 9002: a probe timeout moves the two lowest data packets to fresh
      sequences, and touches no other. */
  lemma TwoOldestGoOutAgain(c: Conn, now: int, s: nat)
    requires Steady(c) && s in c.pm.sent
    ensures var sent' := PtoFires(c, now).pm.sent;
            if !c.pm.sent[s].probe && |Below(c.pm, s)| < 2 then s !in sent'
            else s in sent' && sent'[s] == c.pm.sent[s]
  {
    SteadyKeyed(c);
    OldestTracked(c.pm, PTO_PROBES);
    if !c.pm.sent[s].probe { OldestExactly(c.pm, PTO_PROBES, s); }
    PtoSteady(c, now);
    hide Steady, PtoFires, Oldest, Below, Onward;
    if c.pm.sent[s].probe {
      assert s !in Sequences(Oldest(c.pm, PTO_PROBES));
    }
  }

  lemma SteadyKeyed(c: Conn)
    requires Steady(c)
    ensures Keyed(c.pm)
  {
    SoundKeyed(c);
    hide Sound;
  }
}
