/** Exactly when recovery can go quiet: data outstanding, and no timer left that would
    send it again. */
module Stalling {
  import opened Frames
  import opened Packets
  import opened Sending
  import opened Custody
  import opened Recovery
  import opened Runs
  import Congestion
  import Streams

  /** Data is tracked at or below the largest acknowledged. */
  ghost predicate Behind(m: Manager) { exists s :: s in m.sent && !m.sent[s].probe && s <= m.largestAcked }

  /** The loss timer will have data sent again. */
  ghost predicate LossAwake(m: Manager) { m.lossTimer.Some? && Behind(m) }

  /** Data is outstanding, and neither the probe timer, the queue's nor the loss timer
      will ever send it. */
  ghost predicate Quiet(c: Conn) { Outstanding(c) && !Awake(c) && !LossAwake(c.pm) }

  lemma QuietIs(c: Conn)
    requires Rest(c)
    ensures Quiet(c) <==>
            (c.queue != [] || Total(c.pm.sent) > 0) && c.cc.ptoTimer.None? && c.lostTimer.None? && !LossAwake(c.pm)
  {
    OutstandingWeighs(c);
    hide Rest, Total, LossAwake;
  }

  lemma AwakeIs(c: Conn)
    ensures Awake(c) <==> c.cc.ptoTimer.Some? || c.lostTimer.Some?
  {
  }

  // ----- Acknowledgement -----

  /** What the frame leaves tracked. */
  ghost function Left(c: Conn, f: AckFrame): map<nat, SentPacket> { c.pm.sent - set s | s in Expand(f) }

  /** The frame names something tracked. */
  ghost predicate Names(c: Conn, f: AckFrame) { exists s :: s in c.pm.sent && s in Expand(f) }

  /** Data the frame leaves tracked sits at or below the largest acknowledged after it. */
  ghost predicate LeavesBehind(c: Conn, f: AckFrame) {
    exists s :: s in Left(c, f) && !c.pm.sent[s].probe && s <= Max(c.pm.largestAcked, f.largestAcked)
  }

  lemma TakenIs(c: Conn, f: AckFrame, now: int)
    ensures var (m, acked) := HandleAck(c.pm, f, now);
            && (acked != [] <==> Names(c, f))
            && (Names(c, f) ==> m.sent == Left(c, f) && (Behind(m) <==> LeavesBehind(c, f)))
  {
    TakeAllIsExact(c.pm.sent, Expand(f));
    var (rest, acked) := TakeAll(c.pm.sent, Expand(f));
    hide Expand, TakeAll;
    if s :| s in c.pm.sent && s in Expand(f) { assert c.pm.sent[s].(isAcked := true) in acked; }
    assert rest == Left(c, f);
    if acked != [] { assert acked[0] in acked; }
  }

  /** What booking an ACK does to flight, timers and tracking. */
  lemma TakenFrom(c: Conn, f: AckFrame, now: int, target: int)
    requires Rest(c) && Names(c, f)
    ensures var c1 := AckTaken(c, f, now, target);
            && Steady(c1) && c1.queue == c.queue && c1.pm.sent == Left(c, f)
            && (Behind(c1.pm) <==> LeavesBehind(c, f))
            && (c1.cc.ptoTimer.Some? <==> c.cc.inflight + Total(Left(c, f)) > Total(c.pm.sent))
  {
    TakenIs(c, f, now);
    AckSteady(c, f, now, target);
    AckView(c, f, now);
    BookedManager(c, f, now, target);
    var acked := HandleAck(c.pm, f, now).1;
    AckedController(c.cc, DataSize(acked), LargestSample(acked, f.largestAcked), f.ackDelay * MILLISECOND,
                    f.largestAcked, now, target);
    hide Rest, Steady, HandleAck, InCustody, Total, DataSize, LargestSample, Congestion.OnPacketAcked;
    hide Left, LeavesBehind, Behind, Names;
  }

  lemma DetectIs(c: Conn, now: int)
    ensures var (pm, lost) := Detect(c.pm, now, LossDelay(c.cc.smoothedRtt, c.cc.latestRtt));
            var mtu := MtuAfterLoss(c.mtu, lost, !c.ackedLarge, now);
            DetectLost(c, now) ==
            if DataOnly(lost) == [] then c.(pm := pm, mtu := mtu)
            else FlushLost(Queued(c.(pm := pm, mtu := mtu), DataOnly(lost)), now)
  {
    NothingLost();
    hide Detect, LossDelay, FlushLost, Queued;
  }

  /** Detection finds data lost only at or below the largest acknowledged; if it finds
      none, the loss timer is armed for any data there. */
  lemma DetectBehind(m: Manager, now: int, delay: int)
    requires Keyed(m)
    ensures var (m', lost) := Detect(m, now, delay);
            && (DataOnly(lost) != [] ==> Behind(m))
            && (DataOnly(lost) == [] ==> (LossAwake(m') <==> Behind(m)))
  {
    var (m', lost) := Detect(m, now, delay);
    DetectReturnsTheLost(m, now, delay);
    DetectLeavesOnlyYoung(m, now, delay);
    DataOnlyMembers(lost);
    assert m'.largestAcked == m.largestAcked;
    hide Detect, DataOnly;
    if DataOnly(lost) == [] {
      assert forall p <- lost :: p.probe;
      assert forall s <- m.sent :: !m.sent[s].probe ==> s in m'.sent && m'.sent[s] == m.sent[s];
    } else {
      assert DataOnly(lost)[0] in DataOnly(lost);
    }
  }

  /** Loss detection that finds no data leaves flight and queue alone, and the loss timer
      armed for any data behind; if it finds any, something is queued or the probe timer
      set. */
  lemma AfterDetection(c: Conn, now: int)
    requires Steady(c)
    ensures var c' := DetectLost(c, now);
            && Steady(c')
            && (|| (Behind(c.pm) && (c'.queue != [] || c'.cc.ptoTimer.Some?))
                || (&& c'.queue == c.queue && c'.lostTimer == c.lostTimer && c'.cc == c.cc
                    && Total(c'.pm.sent) == Total(c.pm.sent) && (LossAwake(c'.pm) <==> Behind(c.pm))))
  {
    hide *;
    DetectSteady(c, now);
    DetectIs(c, now);
    SteadyParts(c);
    SoundKeyed(c);
    var delay := LossDelay(c.cc.smoothedRtt, c.cc.latestRtt);
    var (pm, lost) := Detect(c.pm, now, delay);
    DetectBehind(c.pm, now, delay);
    LossView(c, now, delay);
    DataOnlySize(lost);
    if DataOnly(lost) == [] {
      NothingLost();
    } else {
      LossSizesOk(c.mtu, lost, !c.ackedLarge, now);
      var c1 := c.(pm := pm, mtu := MtuAfterLoss(c.mtu, lost, !c.ackedLarge, now));
      ViewOnly(c.(pm := pm), c1);
      QueuedSteady(c, c1, DataOnly(lost));
      QueuedQueue(c1, DataOnly(lost));
      FlushLostIs(Queued(c1, DataOnly(lost)), now);
      FlushWakes(Queued(c1, DataOnly(lost)).(lostTimer := None), now);
    }
  }

  lemma ViewOnly(c: Conn, c': Conn)
    requires c' == c.(mtu := c'.mtu)
    ensures ViewOf(c') == ViewOf(c)
  {
  }

  lemma QueuedQueue(c: Conn, data: seq<SentPacket>)
    requires data != []
    ensures Queued(c, data).queue == c.queue + data
  {
    hide CcAfterLoss;
  }

  lemma FlushedOnce(c: Conn, now: int)
    requires Steady(c)
    ensures var c' := FlushLost(c, now);
            && Steady(c') && (c.queue == [] ==> c' == c.(lostTimer := None))
            && (c.queue != [] || c.cc.ptoTimer.Some? ==> Awake(c'))
  {
    var c0 := c.(lostTimer := None);
    assert ViewOf(c0) == ViewOf(c);
    assert Steady(c0) by { hide InCustody, Total; }
    FlushRests(c, now);
    assert Steady(FlushLost(c, now));
    if c0.queue != [] || c0.cc.ptoTimer.Some? { FlushWakes(c0, now); }
    hide Steady;
  }

  /** A path-MTU probe is not data: it neither is behind nor puts anything behind. */
  lemma ProbeBehind(c: Conn, now: int)
    requires Keyed(c.pm) && KeyedIn(c.pm.sent, c.pm.nextSeq)
    ensures LossAwake(ProbeMtu(c, now).pm) <==> LossAwake(c.pm)
  {
    var c' := ProbeMtu(c, now);
    NextFree(c.pm.sent, c.pm.nextSeq);
    assert forall s <- c.pm.sent :: s in c'.pm.sent && c'.pm.sent[s] == c.pm.sent[s];
    assert forall s <- c'.pm.sent :: s in c.pm.sent || c'.pm.sent[s].probe;
  }

  /** An ACK can leave data outstanding with no timer that would send it, and this is
      exactly when: nothing is queued, the bytes the ACK names are at least those booked in
      flight, data is left tracked all the same, and none of that data sits at or below the
      largest acknowledged, where it would be found lost or wait for the loss timer. An ACK
      that names nothing tracked changes nothing. */
  lemma QuietAfterAck(c: Conn, f: AckFrame, now: int, target: int)
    requires Rest(c)
    ensures !Names(c, f) ==> HandleAckFrame(c, f, now, target) == c
    ensures Names(c, f) ==>
            (Quiet(HandleAckFrame(c, f, now, target)) <==>
             && c.queue == [] && 0 < Total(Left(c, f)) && c.cc.inflight + Total(Left(c, f)) <= Total(c.pm.sent)
             && !LeavesBehind(c, f))
  {
    hide *;
    TakenIs(c, f, now);
    HandleAckIs(c, f, now, target);
    if Names(c, f) {
      var c1 := AckTaken(c, f, now, target);
      var c2 := DetectLost(c1, now);
      var c3 := FlushLost(c2, now);
      var c4 := ProbeMtu(c3, now);
      AckRests(c, f, now, target);
      TakenFrom(c, f, now, target);
      AfterDetection(c1, now);
      FlushedOnce(c2, now);
      FlushRests(c2, now);
      RestIs(c3);
      ProbeMtuSteady(c3, now);
      ProbeBehind(c3, now);
      QuietIs(c4);
      AwakeIs(c3);
    }
  }

  /** An ACK that leaves nothing at or below the largest acknowledged leaves the loss
      timer off. */
  lemma Disarmed(c: Conn, f: AckFrame, now: int, target: int)
    requires Rest(c) && Names(c, f) && forall s <- Left(c, f) :: s > Max(c.pm.largestAcked, f.largestAcked)
    ensures HandleAckFrame(c, f, now, target).pm.lossTimer.None?
  {
    TakenLargest(c, f, now, target);
    hide *;
    TakenIs(c, f, now);
    TakenFrom(c, f, now, target);
    HandleAckIs(c, f, now, target);
    var c1 := AckTaken(c, f, now, target);
    var c2 := DetectLost(c1, now);
    var c3 := FlushLost(c2, now);
    var delay := LossDelay(c1.cc.smoothedRtt, c1.cc.latestRtt);
    DetectLeavesOnlyYoung(c1.pm, now, delay);
    DetectSteady(c1, now);
    FlushRests(c2, now);
    ProbeRests(c3, now);
    OnwardIs(ViewOf(c1.(pm := Detect(c1.pm, now, delay).0)), ViewOf(c2));
    OnwardIs(ViewOf(c2), ViewOf(c3));
    OnwardIs(ViewOf(c3), ViewOf(ProbeMtu(c3, now)));
    TimerSeen(c1.(pm := Detect(c1.pm, now, delay).0));
    TimerSeen(ProbeMtu(c3, now));
  }

  lemma TakenLargest(c: Conn, f: AckFrame, now: int, target: int)
    ensures HandleAck(c.pm, f, now).1 != [] ==>
            AckTaken(c, f, now, target).pm.largestAcked == Max(c.pm.largestAcked, f.largestAcked)
  {
    BookedManager(c, f, now, target);
    hide AckTaken, TakeAll, Expand;
  }

  lemma TimerSeen(c: Conn)
    ensures ViewOf(c).lossTimer == c.pm.lossTimer
  {
  }

  // ----- The probe timeout -----

  /** Data sits at or below the largest acknowledged and is not among the packets a probe
      timeout sends again. */
  ghost predicate BehindOthers(m: Manager) {
    exists s :: s in m.sent && !m.sent[s].probe && s <= m.largestAcked && m.sent[s] !in Oldest(m, PTO_PROBES)
  }

  /** A probe timeout does so exactly when nothing is booked in flight or queued, data is
      tracked, and the loss timer is off or only watches what is sent again now. */
  lemma QuietAfterPto(c: Conn, now: int)
    requires Rest(c) && Informed(ViewOf(c))
    ensures Quiet(PtoFires(c, now)) <==>
            && c.queue == [] && c.cc.inflight == 0 && Total(c.pm.sent) > 0
            && !(c.pm.lossTimer.Some? && BehindOthers(c.pm))
  {
    var c' := PtoFires(c, now);
    hide *;
    RestIs(c);
    PtoSteady(c, now);
    ApplyPto(c, now);
    StepRests(c, Pto(now));
    NoneToProbe(c);
    RestServes(c);
    OldestTracked(c.pm, PTO_PROBES);
    LeftBehindByPto(c, c');
    QuietIs(c');
  }

  lemma LeftBehindByPto(c: Conn, c': Conn)
    requires Informed(ViewOf(c)) && Keyed(c.pm) && Onward(ViewOf(c), ViewOf(c'))
    requires StillTracked(c.pm.sent, c'.pm.sent, Sequences(Oldest(c.pm, PTO_PROBES)))
    requires forall p <- Oldest(c.pm, PTO_PROBES) :: p.sequence in c.pm.sent && c.pm.sent[p.sequence] == p && !p.probe
    ensures LossAwake(c'.pm) <==> c.pm.lossTimer.Some? && BehindOthers(c.pm)
  {
    hide Oldest;
    var m, m', again := c.pm, c'.pm, Oldest(c.pm, PTO_PROBES);
    assert forall s <- m.sent :: s in Sequences(again) <==> m.sent[s] in again;
    assert forall s <- m'.sent :: s <= m'.largestAcked ==>
             s in m.sent && m.sent[s] !in again && m'.sent[s] == m.sent[s];
    if s :| s in m.sent && !m.sent[s].probe && s <= m.largestAcked && m.sent[s] !in again {
      assert s in m'.sent && m'.sent[s] == m.sent[s];
    }
  }

  lemma ApplyPto(c: Conn, now: int)
    ensures Possible(c, Pto(now)) && Apply(c, Pto(now)) == PtoFires(c, now)
  {
    hide PtoFires;
  }

  lemma RestServes(c: Conn)
    requires Rest(c)
    ensures (c.queue != [] ==> c.lostTimer.Some? || c.cc.inflight > 0) && (c.lostTimer.Some? ==> c.queue != [])
  {
    hide Steady;
  }

  lemma NoneToProbe(c: Conn)
    requires Rest(c)
    ensures Total(c.pm.sent) == 0 ==> Oldest(c.pm, PTO_PROBES) == []
  {
    OutstandingWeighs(c);
    if Total(c.pm.sent) == 0 {
      assert DataKeys(c.pm) == {};
    }
  }

  // ----- Every other step -----

  /** No other step ever takes a connection from awake to quiet. */
  lemma OthersStayAwake(c: Conn, step: Step)
    requires Rest(c) && !Quiet(c) && Possible(c, step) && !step.Acks? && !step.Pto?
    ensures !Quiet(Apply(c, step))
  {
    StepRests(c, step);
    hide Quiet, Write, Finish, LossTimerFires, FlushLost;
    match step
    case Writes(stream, data, chunk, isSyn, now) => WriteArms(c, stream, data, chunk, isSyn, now);
    case Closes(stream, now) => FinishArms(c, stream, now);
    case LossTimer(now) => LossTimerKeepsAwake(c, now);
    case LostTimer(now) => LostTimerKeepsAwake(c, now);
  }

  lemma WriteArms(c: Conn, stream: nat, data: seq<byte>, chunk: nat, isSyn: bool, now: int)
    requires chunk > 0
    ensures var c' := Write(c, stream, data, chunk, isSyn, now); c' == c || !Quiet(c')
  {
    var fs := Streams.Chunks(|Written(c, stream)|, data, chunk, isSyn, false);
    if fs != [] {
      var c1, f := SendAll(c, stream, fs[..|fs| - 1], now), fs[|fs| - 1];
      SentController(c1.cc, PacketSize(c1, f), now);
      hide Congestion.OnPacketSent, SendAll, Outstanding, LossAwake;
      assert SendAll(c, stream, fs, now) == SendData(c1, stream, f, true, now) by { SendLast(c, stream, fs, now); }
    }
  }

  lemma SendLast(c: Conn, stream: nat, fs: seq<StreamFrame>, now: int)
    requires fs != []
    ensures SendAll(c, stream, fs, now) ==
            SendData(SendAll(c, stream, fs[..|fs| - 1], now), stream, fs[|fs| - 1], true, now)
  {
    hide SendData;
  }

  lemma FinishArms(c: Conn, stream: nat, now: int)
    ensures !Quiet(Finish(c, stream, now))
  {
    SentController(c.cc, c.hdr + STREAM_FRAME_HEADER, now);
    hide Congestion.OnPacketSent, Outstanding, LossAwake;
  }

  lemma LossTimerKeepsAwake(c: Conn, now: int)
    requires Rest(c) && !Quiet(c)
    ensures !Quiet(LossTimerFires(c, now))
  {
    LossAwakeIs(c.pm, ForTimer(c).pm);
    hide *;
    LossTimerIs(c, now);
    LossTimerRests(c, now);
    AfterDetection(ForTimer(c), now);
    var c' := LossTimerFires(c, now);
    QuietIs(c);
    QuietIs(c');
    RestServes(c');
    RestArmed(c');
    SameTotal(c, ForTimer(c));
  }

  lemma LossAwakeIs(m: Manager, m': Manager)
    requires m' == m.(ackBeforeLoss := m'.ackBeforeLoss)
    ensures LossAwake(m) ==> Behind(m')
  {
  }

  lemma SameTotal(c: Conn, c': Conn)
    requires ViewOf(c') == ViewOf(c)
    ensures Total(c'.pm.sent) == Total(c.pm.sent)
  {
    hide Total;
  }

  lemma RestArmed(c: Conn)
    requires Rest(c)
    ensures c.cc.inflight > 0 ==> c.cc.ptoTimer.Some?
  {
    hide Sound, Conserved;
  }

  lemma LostTimerKeepsAwake(c: Conn, now: int)
    requires Rest(c) && !Quiet(c)
    ensures !Quiet(FlushLost(c, now))
  {
    hide *;
    RestIs(c);
    RestServes(c);
    FlushRests(c, now);
    FlushedOnce(c, now);
    QuietIs(c);
    QuietIs(FlushLost(c, now));
    AwakeIs(FlushLost(c, now));
  }
}
