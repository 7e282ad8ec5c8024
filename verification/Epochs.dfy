/** Congestion epochs over whole runs of a connection: the window contracts at most once
    per round trip (section 7.3.2 of RFC 9002). */
module Epochs {
  import opened Frames
  import opened Packets
  import opened Sending
  import opened Recovery
  import opened Runs
  import opened Unmoved
  import Congestion
  import Pacing
  import PathMtu
  import Streams

  /** Whether recovery is open, and the sequence that closes it once passed. */
  datatype Epoch = Epoch(open: bool, end: int)

  function EpochOf(cc: Congestion.Controller): Epoch { Epoch(cc.inRecovery, cc.recoveryEndSeq) }

  datatype Window = Window(epoch: Epoch, cwnd: nat)

  function WindowOf(cc: Congestion.Controller): Window { Window(EpochOf(cc), cc.cwnd) }

  // ----- What looks for losses -----

  /** The step looks for losses: the loss timer, or an ACK for something tracked. */
  ghost predicate Looks(c: Conn, step: Step) {
    step.LossTimer? || (step.Acks? && HandleAck(c.pm, step.frame, step.at).1 != [])
  }

  /** The state it looks from: an ACK is booked first. */
  ghost function LooksFrom(c: Conn, step: Step): Conn
    requires Looks(c, step)
  {
    if step.LossTimer? then ForTimer(c) else AckTaken(c, step.frame, step.at, step.target)
  }

  /** The data it would find lost. */
  ghost function LostData(c: Conn, now: int): seq<SentPacket> {
    DataOnly(Detect(c.pm, now, LossDelay(c.cc.smoothedRtt, c.cc.latestRtt)).1)
  }

  /** The step finds data lost outside recovery, and so contracts the window. */
  ghost predicate Contracts(c: Conn, step: Step) {
    Looks(c, step) && LostData(LooksFrom(c, step), step.at) != [] && !LooksFrom(c, step).cc.inRecovery
  }

  /** The step finds persistent congestion. */
  ghost predicate Collapses(c: Conn, step: Step) {
    && Looks(c, step) && LostData(LooksFrom(c, step), step.at) != []
    && var c1 := LooksFrom(c, step); LossPersists(c1.cc, LostData(c1, step.at), c1.pm.ackBeforeLoss)
  }

  /** The step is an ACK that newly acknowledges a sequence of `from` or above. */
  ghost predicate AcksFrom(c: Conn, step: Step, from: int) {
    && step.Acks? && step.frame.largestAcked >= from
    && step.frame.largestAcked in c.pm.sent && step.frame.largestAcked in Expand(step.frame)
  }

  // ----- What the parts of a step do to the epoch -----

  lemma FlushEpoch(c: Conn, now: int)
    ensures WindowOf(Flush(c, now).cc) == WindowOf(c.cc)
  {
    hide Flush;
    FlushSame(c, now);
  }

  lemma {:induction false} SendAllEpoch(c: Conn, stream: nat, fs: seq<StreamFrame>, now: int)
    ensures WindowOf(SendAll(c, stream, fs, now).cc) == WindowOf(c.cc)
  {
    if fs != [] {
      SendAllEpoch(c, stream, fs[..|fs| - 1], now);
      SendEpoch(SendAll(c, stream, fs[..|fs| - 1], now), stream, fs[|fs| - 1], true, now);
      hide SendData;
    }
  }

  lemma SendEpoch(c: Conn, stream: nat, f: StreamFrame, paced: bool, now: int)
    ensures WindowOf(SendData(c, stream, f, paced, now).cc) == WindowOf(c.cc)
  {
    hide Congestion.NextPto, Pacing.OnSent;
  }

  lemma FinishEpoch(c: Conn, stream: nat, now: int)
    ensures WindowOf(Finish(c, stream, now).cc) == WindowOf(c.cc)
  {
    hide SendData;
    SendEpoch(c.(log := c.log.(finished := c.log.finished + {stream})), stream,
              StreamFrame(true, false, |Written(c, stream)|, []), false, now);
  }

  lemma PtoEpoch(c: Conn, now: int)
    ensures WindowOf(PtoFires(c, now).cc) == WindowOf(c.cc)
  {
    hide PtoFires;
    PtoSame(c, now);
  }

  /** Loss detection opens an epoch that ends with the last sequence sent, unless one is
      open or the loss is persistent. */
  lemma DetectEpoch(c: Conn, now: int)
    ensures var data := LostData(c, now);
            WindowOf(DetectLost(c, now).cc) ==
            if data == [] then WindowOf(c.cc)
            else WindowOf(CcAfterLoss(c.cc, data, c.pm.lastSentSeq, c.pm.ackBeforeLoss))
  {
    var (pm, lost) := Detect(c.pm, now, LossDelay(c.cc.smoothedRtt, c.cc.latestRtt));
    DetectKeeps(c.pm, now, LossDelay(c.cc.smoothedRtt, c.cc.latestRtt));
    NothingLost();
    hide Detect, LossDelay, CcAfterLoss, Flush, MtuAfterLoss;
    if lost != [] && DataOnly(lost) != [] {
      var c1 := c.(pm := pm, mtu := MtuAfterLoss(c.mtu, lost, !c.ackedLarge, now));
      FlushEpoch(Queued(c1, DataOnly(lost)).(lostTimer := None), now);
    }
  }

  lemma DetectKeeps(m: Manager, now: int, delay: int)
    ensures var m' := Detect(m, now, delay).0; m'.lastSentSeq == m.lastSentSeq && m'.ackBeforeLoss == m.ackBeforeLoss
  {
    hide LossTimerFor, InOrder;
  }

  /** An ACK closes an epoch only when it newly acknowledges its largest, and that is
      past the epoch's end. */
  lemma AckEpoch(c: Conn, f: AckFrame, now: int, target: int)
    requires Keyed(c.pm) && HandleAck(c.pm, f, now).1 != [] && c.cc.inRecovery
    ensures var c1 := AckTaken(c, f, now, target);
            && c1.pm.lastSentSeq == c.pm.lastSentSeq
            && (EpochOf(c1.cc) == EpochOf(c.cc) || AcksFrom(c, Acks(f, now, target), c.cc.recoveryEndSeq + 1))
  {
    var acked := HandleAck(c.pm, f, now).1;
    TakeAllIsExact(c.pm.sent, Expand(f));
    hide Expand, TakeAll, Congestion.NextPto, Congestion.CubicWindow, Congestion.UpdateRtt, Pacing.UpdateRate;
    hide MtuAfterAck, DataSize;
    SampleOf(acked, f.largestAcked);
    UpdateEpoch(c.cc);
  }

  lemma UpdateEpoch(cc: Congestion.Controller)
    ensures forall c0, sentTime, ackDelay, now {:trigger Congestion.UpdateRtt(c0, sentTime, ackDelay, now)} ::
              EpochOf(Congestion.UpdateRtt(c0, sentTime, ackDelay, now)) == EpochOf(c0)
  {
  }

  lemma {:induction false} SampleOf(acked: seq<SentPacket>, largest: nat)
    ensures LargestSample(acked, largest).Some? ==> exists p :: p in acked && p.sequence == largest
  {
    if acked != [] {
      SampleOf(acked[..|acked| - 1], largest);
      assert acked[|acked| - 1] in acked;
      assert forall p <- acked[..|acked| - 1] :: p in acked;
    }
  }

  // ----- One step -----

  ghost function WindowBefore(c: Conn, step: Step): Window {
    if Looks(c, step) then WindowOf(LooksFrom(c, step).cc) else WindowOf(c.cc)
  }

  /** A step changes the epoch only through the ACK it books and the loss it finds. */
  lemma StepEpoch(c: Conn, step: Step)
    requires Rest(c) && Possible(c, step)
    ensures var c' := Apply(c, step);
            if Looks(c, step) && LostData(LooksFrom(c, step), step.at) != [] then
              var c1 := LooksFrom(c, step);
              WindowOf(c'.cc) == WindowOf(CcAfterLoss(c1.cc, LostData(c1, step.at), c1.pm.lastSentSeq,
                  c1.pm.ackBeforeLoss))
            else WindowOf(c'.cc) == WindowBefore(c, step)
  {
    hide CcAfterLoss, LostData, HandleAck, AckTaken, DetectLost, FlushLost, Flush, ProbeMtu, SendAll;
    hide SendData, PtoFires;
    hide HandleAckFrame, Rest, Written, Streams.Chunks, Finish;
    match step
    case Writes(stream, data, chunk, isSyn, now) =>
      SendAllEpoch(c, stream, Streams.Chunks(|Written(c, stream)|, data, chunk, isSyn, false), now);
    case Closes(stream, now) => FinishEpoch(c, stream, now);
    case Acks(f, now, target) => AckStepEpoch(c, f, now, target);
    case LossTimer(now) => DetectEpoch(ForTimer(c), now);
    case LostTimer(now) => FlushLostIs(c, now); FlushEpoch(c.(lostTimer := None), now);
    case Pto(now) => PtoEpoch(c, now);
  }

  lemma AckStepEpoch(c: Conn, f: AckFrame, now: int, target: int)
    ensures var c', c1 := HandleAckFrame(c, f, now, target), AckTaken(c, f, now, target);
            && (HandleAck(c.pm, f, now).1 == [] ==> c' == c)
            && (HandleAck(c.pm, f, now).1 != [] ==> WindowOf(c'.cc) == WindowOf(DetectLost(c1, now).cc))
            && DetectedEpoch(c1, now)
  {
    HandleAckIs(c, f, now, target);
    var c2 := DetectLost(AckTaken(c, f, now, target), now);
    FlushLostIs(c2, now);
    FlushEpoch(c2.(lostTimer := None), now);
    ProbeMtuEpoch(FlushLost(c2, now), now);
    DetectEpoch(AckTaken(c, f, now, target), now);
    hide HandleAck, HandleAckFrame, AckTaken, DetectLost, FlushLost, Flush, ProbeMtu, LostData, CcAfterLoss;
  }

  ghost predicate DetectedEpoch(c: Conn, now: int) {
    var data := LostData(c, now);
    WindowOf(DetectLost(c, now).cc) ==
    if data == [] then WindowOf(c.cc)
    else WindowOf(CcAfterLoss(c.cc, data, c.pm.lastSentSeq, c.pm.ackBeforeLoss))
  }

  lemma ProbeMtuEpoch(c: Conn, now: int)
    ensures ProbeMtu(c, now).cc == c.cc
  {
    hide PathMtu.NextProbe;
  }

  /** A contraction opens an epoch that ends with the last sequence sent before it. */
  lemma ContractionOpens(c: Conn, step: Step)
    requires Rest(c) && Possible(c, step) && Contracts(c, step) && !Collapses(c, step)
    requires c.pm.lastSentSeq == c.pm.nextSeq - 1
    ensures EpochOf(Apply(c, step).cc) == Epoch(true, c.pm.nextSeq - 1)
  {
    StepEpoch(c, step);
    var c1 := LooksFrom(c, step);
    SameLast(c, step);
    CollapsesExactly(c1.cc, LostData(c1, step.at), c1.pm.lastSentSeq, c1.pm.ackBeforeLoss);
    hide Apply, LooksFrom, Looks, LostData, LossPersists, CcAfterLoss, Rest;
  }

  lemma SameLast(c: Conn, step: Step)
    requires Looks(c, step)
    ensures LooksFrom(c, step).pm.lastSentSeq == c.pm.lastSentSeq
  {
    hide TakeAll, Expand;
  }

  /** An open epoch stays open, whatever is lost, until an ACK passes its end. */
  lemma EpochStays(c: Conn, step: Step)
    requires Rest(c) && Possible(c, step) && c.cc.inRecovery && !Collapses(c, step)
    requires !AcksFrom(c, step, c.cc.recoveryEndSeq + 1)
    ensures EpochOf(Apply(c, step).cc) == EpochOf(c.cc)
  {
    StepEpoch(c, step);
    RestIs(c);
    LooksOpen(c, step);
    if Looks(c, step) && LostData(LooksFrom(c, step), step.at) != [] {
      var c1 := LooksFrom(c, step);
      CollapsesExactly(c1.cc, LostData(c1, step.at), c1.pm.lastSentSeq, c1.pm.ackBeforeLoss);
    }
    hide Apply, LooksFrom, Looks, LostData, LossPersists, CcAfterLoss, Rest, AcksFrom;
  }

  lemma LooksOpen(c: Conn, step: Step)
    requires Keyed(c.pm) && c.cc.inRecovery && !AcksFrom(c, step, c.cc.recoveryEndSeq + 1)
    ensures WindowBefore(c, step).epoch == EpochOf(c.cc)
  {
    hide AcksFrom, HandleAck, AckTaken;
    if step.Acks? && HandleAck(c.pm, step.frame, step.at).1 != [] { AckEpoch(c, step.frame, step.at, step.target); }
  }

  /** The window shrinks only when a step finds data lost outside recovery, or persistent
      congestion. */
  lemma ShrinksOnlyOnLoss(c: Conn, step: Step)
    requires Rest(c) && Possible(c, step) && Apply(c, step).cc.cwnd < c.cc.cwnd
    ensures Contracts(c, step) || Collapses(c, step)
  {
    StepEpoch(c, step);
    GrowsBefore(c, step);
    if Looks(c, step) && LostData(LooksFrom(c, step), step.at) != [] {
      var c1 := LooksFrom(c, step);
      CollapsesExactly(c1.cc, LostData(c1, step.at), c1.pm.lastSentSeq, c1.pm.ackBeforeLoss);
    }
    hide Apply, LooksFrom, Looks, LostData, LossPersists, CcAfterLoss, Rest;
  }

  lemma GrowsBefore(c: Conn, step: Step)
    ensures WindowBefore(c, step).cwnd >= c.cc.cwnd
  {
    if step.Acks? && HandleAck(c.pm, step.frame, step.at).1 != [] {
      var f, acked := step.frame, HandleAck(c.pm, step.frame, step.at).1;
      AckedController(c.cc, DataSize(acked), LargestSample(acked, f.largestAcked), f.ackDelay * MILLISECOND,
                      f.largestAcked, step.at, step.target);
    }
    hide HandleAck, DataSize, LargestSample, MtuAfterAck, Congestion.OnPacketAcked;
  }

  // ----- Whole runs -----

  ghost function StateAt(hdr: nat, steps: seq<Step>, k: nat): Conn
    requires k <= |steps|
  {
    Run(NewConn(hdr), steps[..k])
  }

  /** Step `k` takes place and contracts the window. */
  ghost predicate ContractsAt(hdr: nat, steps: seq<Step>, k: nat)
    requires k < |steps|
  {
    Contracts(StateAt(hdr, steps, k), steps[k])
  }

  ghost predicate CollapsesAt(hdr: nat, steps: seq<Step>, k: nat)
    requires k < |steps|
  {
    Collapses(StateAt(hdr, steps, k), steps[k])
  }

  /** Step `k` newly acknowledges a sequence of `from` or above. */
  ghost predicate AcksAt(hdr: nat, steps: seq<Step>, k: nat, from: int)
    requires k < |steps|
  {
    AcksFrom(StateAt(hdr, steps, k), steps[k], from)
  }

  lemma StateNext(hdr: nat, steps: seq<Step>, k: nat)
    requires k < |steps|
    ensures var c := StateAt(hdr, steps, k);
            StateAt(hdr, steps, k + 1) == if Possible(c, steps[k]) then Apply(c, steps[k]) else c
  {
    assert steps[..k + 1][..k] == steps[..k];
    hide Apply, Possible;
  }

  lemma StateRests(hdr: nat, steps: seq<Step>, k: nat)
    requires Headers(hdr) && k <= |steps|
    ensures var c := StateAt(hdr, steps, k); Rest(c) && c.pm.lastSentSeq == c.pm.nextSeq - 1
  {
    NewConnRests(hdr);
    RunRests(NewConn(hdr), steps[..k]);
    LastSentIsLast(hdr, steps[..k]);
    hide Run, Rest;
  }

  lemma OpensAt(hdr: nat, steps: seq<Step>, i: nat)
    requires Headers(hdr) && i < |steps| && ContractsAt(hdr, steps, i) && !CollapsesAt(hdr, steps, i)
    ensures EpochOf(StateAt(hdr, steps, i + 1).cc) == Epoch(true, StateAt(hdr, steps, i).pm.nextSeq - 1)
  {
    var c, step := StateAt(hdr, steps, i), steps[i];
    assert Contracts(c, step) && !Collapses(c, step) by { hide StateAt, Contracts, Collapses; }
    hide *;
    StateNext(hdr, steps, i);
    StateRests(hdr, steps, i);
    Acting(c, step);
    ContractionOpens(c, step);
  }

  lemma Acting(c: Conn, step: Step)
    requires Contracts(c, step)
    ensures Possible(c, step)
  {
    hide LostData, HandleAck;
  }

  lemma StaysAt(hdr: nat, steps: seq<Step>, k: nat, from: nat)
    requires Headers(hdr) && k < |steps| && EpochOf(StateAt(hdr, steps, k).cc) == Epoch(true, from - 1)
    requires !CollapsesAt(hdr, steps, k) && !AcksAt(hdr, steps, k, from)
    ensures EpochOf(StateAt(hdr, steps, k + 1).cc) == Epoch(true, from - 1)
  {
    var c, step := StateAt(hdr, steps, k), steps[k];
    assert !Collapses(c, step) && !AcksFrom(c, step, from) && c.cc.inRecovery && c.cc.recoveryEndSeq == from - 1
    by { hide StateAt, Collapses, AcksFrom; }
    hide *;
    StateNext(hdr, steps, k);
    StateRests(hdr, steps, k);
    if Possible(c, step) { EpochStays(c, step); }
  }

  lemma NotContracting(hdr: nat, steps: seq<Step>, k: nat, from: nat)
    requires Headers(hdr) && k < |steps| && EpochOf(StateAt(hdr, steps, k).cc) == Epoch(true, from - 1)
    requires !AcksAt(hdr, steps, k, from)
    ensures !ContractsAt(hdr, steps, k)
  {
    var c, step := StateAt(hdr, steps, k), steps[k];
    StateRests(hdr, steps, k);
    RestIs(c);
    LooksOpen(c, step);
    hide StateAt, Rest, AcksFrom, HandleAck, LostData, AckTaken;
  }

  /** From a contraction on, its epoch is open until an ACK goes past everything sent
      when it began. */
  lemma {:induction false} OpenUntilAcked(hdr: nat, steps: seq<Step>, i: nat, k: nat)
    requires Headers(hdr) && i < k <= |steps| && ContractsAt(hdr, steps, i)
    requires forall n :: i <= n < k ==> !CollapsesAt(hdr, steps, n)
    ensures var from := StateAt(hdr, steps, i).pm.nextSeq;
            || EpochOf(StateAt(hdr, steps, k).cc) == Epoch(true, from - 1)
            || exists n :: i < n < k && AcksAt(hdr, steps, n, from)
    decreases k
  {
    hide *;
    var from := StateAt(hdr, steps, i).pm.nextSeq;
    assert !CollapsesAt(hdr, steps, k - 1);
    if k - 1 == i {
      OpensAt(hdr, steps, i);
    } else {
      OpenUntilAcked(hdr, steps, i, k - 1);
      if n :| i < n < k - 1 && AcksAt(hdr, steps, n, from) {
        assert AcksAt(hdr, steps, n, from);
      } else if !AcksAt(hdr, steps, k - 1, from) {
        StaysAt(hdr, steps, k - 1, from);
      }
    }
  }

  /** Absent persistent congestion, between any two contractions of any run an ACK newly
      acknowledged a packet that had not been sent when the first of them happened. */
  lemma OneContractionPerRoundTrip(hdr: nat, steps: seq<Step>, i: nat, j: nat)
    requires Headers(hdr) && i < j < |steps| && ContractsAt(hdr, steps, i) && ContractsAt(hdr, steps, j)
    requires forall n :: i <= n < j ==> !CollapsesAt(hdr, steps, n)
    ensures exists n :: i < n <= j && AcksAt(hdr, steps, n, StateAt(hdr, steps, i).pm.nextSeq)
  {
    hide *;
    var from := StateAt(hdr, steps, i).pm.nextSeq;
    OpenUntilAcked(hdr, steps, i, j);
    if !AcksAt(hdr, steps, j, from) {
      if n :| i < n < j && AcksAt(hdr, steps, n, from) {
        assert AcksAt(hdr, steps, n, from);
      } else {
        NotContracting(hdr, steps, j, from);
      }
    }
  }
}
