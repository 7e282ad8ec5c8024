/** The congestion controller's bookkeeping (RFC 9002): bytes in flight, the window
    and its recovery epochs, the RTT estimate and the probe timer. The CUBIC target
    window is an input: every claim here holds whatever value it takes. */
module Congestion {
  import opened Frames
  import opened Pacing

  const INITIAL_RTT: int := 333 * MILLISECOND
  const GRANULARITY: int := MILLISECOND
  const PERSISTENT_CONGESTION_THRESHOLD: int := 3
  const MAX_INT: nat := 0x7FFF_FFFF_FFFF_FFFF

  datatype Controller = Controller(
    cwnd: Positive, ssthresh: nat,
    smoothedRtt: int, rttVar: int, minRtt: int, latestRtt: int, firstRttSample: bool,
    inflight: nat, inRecovery: bool, recoveryEndSeq: int,
    ptoTimer: Option<int>, ptoCount: nat, lastSendTime: Option<int>, pacer: Pacer)

  function Fresh(): Controller {
    Controller(INITIAL_CWND, MAX_INT, INITIAL_RTT, INITIAL_RTT / 2, 0, 0, true,
               0, false, -1, None, 0, None, Unpaced())
  }

  predicate CanSend(c: Controller, bytes: nat) { c.inflight + bytes <= c.cwnd }

  function Available(c: Controller): nat {
    if c.inflight >= c.cwnd then 0 else c.cwnd - c.inflight
  }

  /** smoothed_rtt + max(4 * rttvar, granularity) + max_ack_delay. */
  function Pto(c: Controller): int {
    c.smoothedRtt + Max(4 * c.rttVar, GRANULARITY) + MAX_ACK_DELAY
  }

  function Doubled(n: int, times: nat): int
    decreases times
  {
    if times == 0 then n else Doubled(2 * n, times - 1)
  }

  /** The base timeout backed off by the timeouts since the last ACK. */
  function NextPto(c: Controller): int {
    Doubled(Pto(c), Min(c.ptoCount, 20))
  }

  function ArmPto(c: Controller, now: int): Controller {
    var wait := NextPto(c);
    var left := if c.lastSendTime.Some? then Min(wait, c.lastSendTime.value + wait - now) else wait;
    c.(ptoTimer := Some(now + Max(left, GRANULARITY)))
  }

  function OnPacketSent(c: Controller, bytes: nat, now: int): Controller {
    ArmPto(c.(inflight := c.inflight + bytes, lastSendTime := Some(now)), now)
  }

  function Repaced(c: Controller): Controller {
    if c.firstRttSample then c
    else c.(pacer := UpdateRate(c.pacer, c.cwnd, c.smoothedRtt, c.cwnd < c.ssthresh))
  }

  function UpdateRtt(c: Controller, sentTime: int, ackDelay: int, now: int): Controller {
    var latest := now - sentTime;
    if latest < 0 then c
    else if c.firstRttSample then
      c.(firstRttSample := false, latestRtt := latest, minRtt := latest, smoothedRtt := latest, rttVar := latest / 2)
    else
      var minRtt := Min(c.minRtt, latest);
      var delay := Min(ackDelay, MAX_ACK_DELAY);
      var adjusted := if latest >= minRtt + delay then latest - delay else latest;
      var sample := if c.smoothedRtt >= adjusted then c.smoothedRtt - adjusted else adjusted - c.smoothedRtt;
      c.(minRtt := minRtt, latestRtt := adjusted,
         rttVar := (3 * c.rttVar + sample) / 4, smoothedRtt := (7 * c.smoothedRtt + adjusted) / 8)
  }

  /** Section 5.3 of RFC 9002: the first sample sets every estimate. A later one has the
      peer's delay, at most 25 ms of it, taken off unless that would go below the smallest
      RTT seen; it leaves seven eighths of the smoothed RTT's distance to the sample, and
      moves the variation a quarter of the way to that distance. */
  lemma RttSampleSound(c: Controller, sentTime: int, ackDelay: int, now: int)
    requires sentTime <= now && ackDelay >= 0
    ensures var (c', rtt) := (UpdateRtt(c, sentTime, ackDelay, now), now - sentTime);
            var (d, error) := (Min(ackDelay, 25 * MILLISECOND), c.smoothedRtt - c'.latestRtt);
            && c'.minRtt <= c'.latestRtt <= rtt && !c'.firstRttSample
            && (c.firstRttSample ==> c'.minRtt == c'.smoothedRtt == rtt && c'.rttVar == rtt / 2)
            && (!c.firstRttSample ==>
                  && c'.minRtt == Min(c.minRtt, rtt)
                  && c'.latestRtt == (if rtt - d >= c'.minRtt then rtt - d else rtt)
                  && Min(c.smoothedRtt, c'.latestRtt) <= c'.smoothedRtt <= Max(c.smoothedRtt, c'.latestRtt)
                  && 7 * error - 8 < 8 * (c'.smoothedRtt - c'.latestRtt) <= 7 * error
                  && -4 < 4 * (c'.rttVar - c.rttVar) - (Max(error, -error) - c.rttVar) <= 0)
  {
    var c' := UpdateRtt(c, sentTime, ackDelay, now);
    if !c.firstRttSample {
      var a, b := c.smoothedRtt, c'.latestRtt;
      assert c'.smoothedRtt == (7 * a + b) / 8;
    }
  }

  /** A sample from the future is not taken. */
  lemma NoSampleFromTheFuture(c: Controller, sentTime: int, ackDelay: int, now: int)
    ensures sentTime > now ==> UpdateRtt(c, sentTime, ackDelay, now) == c
  {
  }

  /** Each timeout in a row without an ACK doubles the wait, up to the cap. */
  lemma BacksOff(c: Controller)
    ensures NextPto(PtoExpired(c)) == if c.ptoCount < 20 then 2 * NextPto(c) else NextPto(c)
  {
    DoubledOnce(Pto(c), Min(c.ptoCount, 20));
  }

  lemma {:induction false} DoubledOnce(n: int, times: nat)
    ensures Doubled(n, times + 1) == 2 * Doubled(n, times)
    decreases times
  {
    if times > 0 { DoubledOnce(2 * n, times - 1); }
  }

  /** Section 6.2.1 of RFC 9002: with no timeout behind it the probe timer runs for the
      smoothed RTT, four variations and the peer's delay, from the last send. A send
      starts it; an ACK restarts it, a millisecond away at the least, or stops it when
      nothing is left in flight; and a timeout starts it again from where it fired. */
  lemma ProbeTimer(c: Controller, bytes: nat, sample: Option<int>, ackDelay: int, largestAcked: int,
                   now: int, target: int)
    ensures c.ptoCount == 0 ==>
              NextPto(c) == c.smoothedRtt + Max(4 * c.rttVar, MILLISECOND) + 25 * MILLISECOND
    ensures var c' := OnPacketSent(c, bytes, now);
            && c'.lastSendTime == Some(now) && c'.inflight == c.inflight + bytes
            && c'.ptoTimer == Some(now + Max(NextPto(c), MILLISECOND))
    ensures var c' := OnPacketAcked(c, bytes, sample, ackDelay, largestAcked, now, target);
            && c'.ptoCount == 0 && (c'.ptoTimer.Some? <==> c'.inflight > 0)
            && (c'.inflight > 0 && c.lastSendTime.Some? ==>
                  c'.ptoTimer == Some(Max(now + MILLISECOND, Min(now, c.lastSendTime.value) + NextPto(c'))))
            && (c'.inflight > 0 && c.lastSendTime.None? ==>
                  c'.ptoTimer == Some(now + Max(MILLISECOND, NextPto(c'))))
    ensures var c' := PtoRearmed(PtoExpired(c), now);
            && c'.ptoCount == c.ptoCount + 1
            && (c.inflight > 0 ==> c'.ptoTimer == Some(now + NextPto(c')) && c'.lastSendTime == Some(now))
            && (c.inflight == 0 ==> c'.ptoTimer.None?)
  {
    hide UpdateRate, UpdateRtt, CubicWindow;
    PtoOf(c.(inflight := c.inflight + bytes, lastSendTime := Some(now)), c);
    AckTimer(c, bytes, sample, ackDelay, largestAcked, now, target);
  }

  lemma AckTimer(c: Controller, bytes: nat, sample: Option<int>, ackDelay: int, largestAcked: int,
                 now: int, target: int)
    ensures var c' := OnPacketAcked(c, bytes, sample, ackDelay, largestAcked, now, target);
            && c'.ptoCount == 0 && c'.lastSendTime == c.lastSendTime
            && c'.ptoTimer == if c'.inflight > 0 then ArmPto(c', now).ptoTimer else None
  {
    hide UpdateRate, NextPto, UpdateRtt, CubicWindow;
    var c0 := c.(inflight := Max(c.inflight - bytes, 0));
    var c1 := if sample.None? then c0 else Grown(c0, bytes, sample.value, ackDelay, largestAcked, now, target);
    var c' := OnPacketAcked(c, bytes, sample, ackDelay, largestAcked, now, target);
    UpdateRttOnly(c0, sample, ackDelay, now);
    PtoOf(c', c1.(ptoTimer := None, ptoCount := 0));
  }

  lemma PtoOf(a: Controller, b: Controller)
    requires a.smoothedRtt == b.smoothedRtt && a.rttVar == b.rttVar && a.ptoCount == b.ptoCount
    ensures NextPto(a) == NextPto(b)
  {
  }

  /** Congestion avoidance towards an arbitrary CUBIC target. */
  function CubicWindow(cwnd: Positive, bytes: nat, target: int): (w: Positive)
    ensures w >= cwnd
  {
    Quotients(cwnd, bytes, target);
    var friendly := cwnd + MAX_DATAGRAM_SIZE * bytes / cwnd;
    if target < friendly then friendly
    else if cwnd < target then cwnd + (target - cwnd) * MAX_DATAGRAM_SIZE / cwnd
    else friendly
  }

  /** Below the Reno estimate, and whenever CUBIC asks for no growth, the window grows as
      Reno's: by at most a datagram for a window's worth of bytes. Above it the window
      moves towards the target, not past it. */
  lemma AvoidanceBounds(cwnd: Positive, bytes: nat, target: int)
    ensures var (w, reno) := (CubicWindow(cwnd, bytes, target), MAX_DATAGRAM_SIZE * bytes / cwnd);
            && (target <= cwnd + reno - 1 || target <= cwnd ==>
                  w == cwnd + reno && (w - cwnd) * cwnd <= MAX_DATAGRAM_SIZE * bytes)
            && (target >= cwnd + reno && target > cwnd ==>
                  && w == cwnd + (target - cwnd) * MAX_DATAGRAM_SIZE / cwnd
                  && (cwnd >= MAX_DATAGRAM_SIZE ==> w <= target))
  {
    Divided(MAX_DATAGRAM_SIZE * bytes, cwnd);
    if target > cwnd && cwnd >= MAX_DATAGRAM_SIZE {
      Divided((target - cwnd) * MAX_DATAGRAM_SIZE, cwnd);
      Shared(target - cwnd, cwnd);
    }
  }

  lemma Divided(n: nat, d: Positive)
    ensures n / d * d <= n
  {
  }

  lemma Shared(gap: nat, cwnd: Positive)
    requires cwnd >= MAX_DATAGRAM_SIZE
    ensures gap * MAX_DATAGRAM_SIZE / cwnd <= gap
  {
    var q := gap * MAX_DATAGRAM_SIZE / cwnd;
    Divided(gap * MAX_DATAGRAM_SIZE, cwnd);
    assert q * MAX_DATAGRAM_SIZE <= q * cwnd;
  }

  lemma Quotients(cwnd: Positive, bytes: nat, target: int)
    ensures MAX_DATAGRAM_SIZE * bytes / cwnd >= 0
    ensures cwnd < target ==> (target - cwnd) * MAX_DATAGRAM_SIZE / cwnd >= 0
  {
  }

  /** `sample` is the send time of the packet whose sequence is the frame's largest,
      when the frame newly acknowledges it. */
  function OnPacketAcked(c: Controller, bytes: nat, sample: Option<int>, ackDelay: int, largestAcked: int,
                         now: int, target: int): Controller {
    var c0 := c.(inflight := Max(c.inflight - bytes, 0));
    var c1 := if sample.None? then c0 else Grown(c0, bytes, sample.value, ackDelay, largestAcked, now, target);
    var c2 := c1.(ptoTimer := None, ptoCount := 0);
    Repaced(if c2.inflight > 0 then ArmPto(c2, now) else c2)
  }

  /** The RTT sample, the end of recovery, and the window's growth. */
  function Grown(c: Controller, bytes: nat, sentTime: int, ackDelay: int, largestAcked: int,
                 now: int, target: int): Controller {
    var c1 := UpdateRtt(c, sentTime, ackDelay, now);
    var c2 := if c1.inRecovery && largestAcked > c1.recoveryEndSeq then c1.(inRecovery := false) else c1;
    if c2.inRecovery then c2
    else if c2.cwnd < c2.ssthresh then c2.(cwnd := c2.cwnd + bytes)
    else c2.(cwnd := CubicWindow(c2.cwnd, bytes, target))
  }

  /** The window contracts, once per recovery epoch. */
  function OnCongestionEvent(c: Controller, lastSentSeq: int): Controller {
    if c.inRecovery then c
    else
      var ssthresh := Max(c.cwnd * 7 / 10, MIN_CWND);
      Repaced(c.(inRecovery := true, recoveryEndSeq := lastSentSeq, ssthresh := ssthresh, cwnd := ssthresh))
  }

  function OnPacketLost(c: Controller, bytes: nat, lastSentSeq: int): Controller {
    OnCongestionEvent(c.(inflight := Max(c.inflight - bytes, 0)), lastSentSeq)
  }

  function OnPersistentCongestion(c: Controller): Controller {
    Repaced(c.(cwnd := MIN_CWND, inRecovery := false, recoveryEndSeq := -1))
  }

  function PersistentCongestionDuration(c: Controller): int {
    Pto(c) * PERSISTENT_CONGESTION_THRESHOLD
  }

  /** The probe timer fires; the probe itself is the connection's. */
  function PtoExpired(c: Controller): Controller {
    c.(ptoCount := c.ptoCount + 1, ptoTimer := None)
  }

  /** After the probe: wait again, from now, if anything is in flight. */
  function PtoRearmed(c: Controller, now: int): Controller {
    if c.inflight > 0 && c.ptoTimer.None?
    then c.(lastSendTime := Some(now), ptoTimer := Some(now + NextPto(c)))
    else c
  }

  // ----- The window in its own terms -----

  /** An ACK's effect on the window. Bytes in flight drop by what was acknowledged. The
      epoch ends exactly when the frame's largest, newly acknowledged, is past it. In
      recovery, or when the largest is not newly acknowledged, the window stays; below the
      threshold it grows by the bytes acknowledged; from the threshold on it follows
      congestion avoidance. The threshold is left alone. */
  lemma AckGrows(c: Controller, bytes: nat, sample: Option<int>, ackDelay: int, largestAcked: int,
                 now: int, target: int)
    ensures var c' := OnPacketAcked(c, bytes, sample, ackDelay, largestAcked, now, target);
            var reno := MAX_DATAGRAM_SIZE * bytes / c.cwnd;
            && c'.inflight == Max(c.inflight - bytes, 0)
            && c'.ssthresh == c.ssthresh && c'.recoveryEndSeq == c.recoveryEndSeq
            && (c'.inRecovery <==> c.inRecovery && (sample.None? || largestAcked <= c.recoveryEndSeq))
            && (sample.None? || c'.inRecovery ==> c'.cwnd == c.cwnd)
            && (sample.Some? && !c'.inRecovery && c.cwnd < c.ssthresh ==> c'.cwnd == c.cwnd + bytes)
            && (sample.Some? && !c'.inRecovery && c.cwnd >= c.ssthresh ==>
                  && c'.cwnd >= c.cwnd
                  && (target < c.cwnd + reno || target <= c.cwnd ==>
                        c'.cwnd == c.cwnd + reno && (c'.cwnd - c.cwnd) * c.cwnd <= MAX_DATAGRAM_SIZE * bytes)
                  && (target >= c.cwnd + reno && target > c.cwnd ==>
                        && c'.cwnd == c.cwnd + (target - c.cwnd) * MAX_DATAGRAM_SIZE / c.cwnd
                        && (c.cwnd >= MAX_DATAGRAM_SIZE ==> c'.cwnd <= target)))
  {
    AvoidanceBounds(c.cwnd, bytes, target);
    hide UpdateRate, NextPto, UpdateRtt, CubicWindow;
    UpdateRttOnly(c.(inflight := Max(c.inflight - bytes, 0)), sample, ackDelay, now);
  }

  lemma AckWindow(c: Controller, bytes: nat, sample: Option<int>, ackDelay: int, largestAcked: int,
                  now: int, target: int)
    ensures var c' := OnPacketAcked(c, bytes, sample, ackDelay, largestAcked, now, target);
            && c'.inflight == Max(c.inflight - bytes, 0) && c'.ssthresh == c.ssthresh && c'.cwnd >= c.cwnd
            && (sample.None? || c'.inRecovery ==> c'.cwnd == c.cwnd)
            && (sample.Some? && !c'.inRecovery && c.cwnd < c.ssthresh ==> c'.cwnd == c.cwnd + bytes)
  {
    hide OnPacketAcked;
    AckGrows(c, bytes, sample, ackDelay, largestAcked, now, target);
  }

  lemma UpdateRttOnly(c: Controller, sample: Option<int>, ackDelay: int, now: int)
    ensures sample.Some? ==>
              var c' := UpdateRtt(c, sample.value, ackDelay, now);
              && c'.cwnd == c.cwnd && c'.ssthresh == c.ssthresh && c'.inflight == c.inflight
              && c'.inRecovery == c.inRecovery && c'.recoveryEndSeq == c.recoveryEndSeq
              && c'.lastSendTime == c.lastSendTime
  {
  }

  /** The RTT estimates after an ACK are those the sample gives, and without one they stay. */
  lemma AckSamplesRtt(c: Controller, bytes: nat, sample: Option<int>, ackDelay: int, largestAcked: int,
                      now: int, target: int)
    ensures var c' := OnPacketAcked(c, bytes, sample, ackDelay, largestAcked, now, target);
            SameRtt(if sample.None? then c else UpdateRtt(c, sample.value, ackDelay, now), c')
  {
    hide UpdateRate, NextPto, CubicWindow;
  }

  predicate SameRtt(a: Controller, b: Controller) {
    && a.smoothedRtt == b.smoothedRtt && a.rttVar == b.rttVar && a.minRtt == b.minRtt
    && a.latestRtt == b.latestRtt && a.firstRttSample == b.firstRttSample
  }

  /** A loss outside recovery takes the window to seven tenths, but not below two
      datagrams, and leaves it at the threshold, so what follows is congestion avoidance
      and not slow start. In recovery a loss only empties the flight. */
  lemma LossContracts(c: Controller, bytes: nat, lastSentSeq: int)
    ensures var c' := OnPacketLost(c, bytes, lastSentSeq);
            && c'.inflight == Max(c.inflight - bytes, 0) && c'.inRecovery
            && (c.inRecovery ==>
                  c'.cwnd == c.cwnd && c'.ssthresh == c.ssthresh && c'.recoveryEndSeq == c.recoveryEndSeq)
            && (!c.inRecovery ==>
                  && c'.cwnd == c'.ssthresh && c'.recoveryEndSeq == lastSentSeq && c'.cwnd >= 2 * MAX_DATAGRAM_SIZE
                  && (c'.cwnd > 2 * MAX_DATAGRAM_SIZE ==> 7 * c.cwnd - 10 < 10 * c'.cwnd <= 7 * c.cwnd)
                  && (c'.cwnd == 2 * MAX_DATAGRAM_SIZE ==> 7 * c.cwnd < 10 * (c'.cwnd + 1)))
  {
    hide UpdateRate;
  }

  /** Persistent congestion leaves two datagrams, ends the epoch and keeps the threshold. */
  lemma CollapseKeepsThreshold(c: Controller)
    ensures var c' := OnPersistentCongestion(c);
            && c'.cwnd == 2 * MAX_DATAGRAM_SIZE && !c'.inRecovery && c'.ssthresh == c.ssthresh
            && c'.inflight == c.inflight && SameRtt(c, c')
  {
    hide UpdateRate;
  }

  // ----- Runs -----

  datatype Op =
    | Sent(bytes: nat, now: int)
    | Acked(bytes: nat, sample: Option<int>, ackDelay: int, largestAcked: int, now: int, target: int)
    | Lost(bytes: nat, lastSentSeq: int)
    | Persistent
    | Expired
    | Rearmed(now: int)

  function Step(c: Controller, op: Op): Controller {
    match op
    case Sent(bytes, now) => OnPacketSent(c, bytes, now)
    case Acked(bytes, sample, ackDelay, largest, now, target) =>
      OnPacketAcked(c, bytes, sample, ackDelay, largest, now, target)
    case Lost(bytes, last) => OnPacketLost(c, bytes, last)
    case Persistent => OnPersistentCongestion(c)
    case Expired => PtoExpired(c)
    case Rearmed(now) => PtoRearmed(c, now)
  }

  function Run(c: Controller, ops: seq<Op>): Controller {
    if ops == [] then c else Step(Run(c, ops[..|ops| - 1]), ops[|ops| - 1])
  }

  /** Whatever happens the window stays at or above the minimum, an ACK never shrinks
      it, and only loss and persistent congestion do. */
  lemma StepKeepsFloor(c: Controller, op: Op)
    requires c.cwnd >= MIN_CWND
    ensures Step(c, op).cwnd >= MIN_CWND
    ensures !op.Lost? && !op.Persistent? ==> Step(c, op).cwnd >= c.cwnd
  {
  }

  lemma {:induction false} WindowNeverBelowTheMinimum(ops: seq<Op>)
    ensures Run(Fresh(), ops).cwnd >= MIN_CWND
  {
    if ops != [] {
      WindowNeverBelowTheMinimum(ops[..|ops| - 1]);
      StepKeepsFloor(Run(Fresh(), ops[..|ops| - 1]), ops[|ops| - 1]);
    }
  }

  /** The pacer carries twice the window in a smoothed RTT below the threshold and five
      quarters of it from there on. */
  predicate PacedToWindow(c: Controller) {
    && (c.pacer.rate.Some? <==> !c.firstRttSample && c.smoothedRtt > 0)
    && (c.pacer.rate.Some? ==>
          4.0 * Refill(c.pacer.rate.value, 0, c.smoothedRtt)
          == (if c.cwnd < c.ssthresh then 8.0 else 5.0) * c.cwnd as real)
  }

  lemma RepacedIsPaced(c: Controller)
    requires c.firstRttSample ==> c.pacer.rate.None?
    ensures PacedToWindow(Repaced(c))
  {
    if c.smoothedRtt > 0 { WorthOfARoundTrip(c.cwnd, c.smoothedRtt, c.cwnd < c.ssthresh, 0); }
    hide Refill, RateFor;
  }

  lemma StepKeepsPace(c: Controller, op: Op)
    requires PacedToWindow(c)
    ensures PacedToWindow(Step(c, op))
  {
    hide Refill, RateFor, NextPto, CubicWindow, UpdateRate;
    match op
    case Acked(bytes, sample, ackDelay, largest, now, target) =>
      var c0 := c.(inflight := Max(c.inflight - bytes, 0));
      var c1 := if sample.None? then c0 else Grown(c0, bytes, sample.value, ackDelay, largest, now, target);
      var c2 := c1.(ptoTimer := None, ptoCount := 0);
      RepacedIsPaced(if c2.inflight > 0 then ArmPto(c2, now) else c2);
    case Lost(bytes, last) =>
      var ssthresh := Max(c.cwnd * 7 / 10, MIN_CWND);
      RepacedIsPaced(c.(inflight := Max(c.inflight - bytes, 0), inRecovery := true, recoveryEndSeq := last,
                        ssthresh := ssthresh, cwnd := ssthresh));
    case Persistent => RepacedIsPaced(c.(cwnd := MIN_CWND, inRecovery := false, recoveryEndSeq := -1));
    case _ =>
  }

  /** Section 7.7 of RFC 9002, in every run: from the first RTT sample on the pacing rate
      is the one the current window, threshold and smoothed RTT call for. */
  lemma {:induction false} AlwaysPacedToTheWindow(ops: seq<Op>)
    ensures PacedToWindow(Run(Fresh(), ops))
  {
    if ops != [] {
      AlwaysPacedToTheWindow(ops[..|ops| - 1]);
      StepKeepsPace(Run(Fresh(), ops[..|ops| - 1]), ops[|ops| - 1]);
    }
  }

  /** Bytes acknowledged over a run. */
  function AckedBytes(ops: seq<Op>): nat {
    if ops == [] then 0
    else AckedBytes(ops[..|ops| - 1]) + if ops[|ops| - 1].Acked? then ops[|ops| - 1].bytes else 0
  }

  predicate Sampled(ops: seq<Op>) { forall op <- ops :: op.Acked? && op.sample.Some? }

  /** In slow start a window's worth of ACKs doubles the window. */
  lemma {:induction false} SlowStartAdds(c: Controller, ops: seq<Op>)
    requires Sampled(ops) && !c.inRecovery && c.cwnd + AckedBytes(ops) <= c.ssthresh
    requires forall op <- ops :: op.bytes > 0
    ensures var c' := Run(c, ops);
            c'.cwnd == c.cwnd + AckedBytes(ops) && !c'.inRecovery && c'.ssthresh == c.ssthresh
  {
    if ops != [] {
      var init, op := ops[..|ops| - 1], ops[|ops| - 1];
      assert op in ops && forall x :: x in init ==> x in ops;
      SlowStartAdds(c, init);
      AckGrows(Run(c, init), op.bytes, op.sample, op.ackDelay, op.largestAcked, op.now, op.target);
    }
  }

  /** In congestion avoidance with CUBIC asking for no more than the window, a window's
      worth of ACKs adds at most one datagram. */
  lemma {:induction false} AvoidanceAddsADatagram(c: Controller, ops: seq<Op>)
    requires Sampled(ops) && !c.inRecovery && c.cwnd >= c.ssthresh
    requires forall op <- ops :: op.target <= c.cwnd
    ensures var c' := Run(c, ops);
            && c'.cwnd >= c.cwnd && !c'.inRecovery && c'.ssthresh == c.ssthresh
            && (c'.cwnd - c.cwnd) * c.cwnd <= MAX_DATAGRAM_SIZE * AckedBytes(ops)
            && (AckedBytes(ops) <= c.cwnd ==> c'.cwnd <= c.cwnd + MAX_DATAGRAM_SIZE)
  {
    hide Step;
    if ops != [] {
      var init, op := ops[..|ops| - 1], ops[|ops| - 1];
      assert op in ops && forall x :: x in init ==> x in ops;
      AvoidanceAddsADatagram(c, init);
      StepAvoids(Run(c, init), op, c.cwnd);
    }
    Cancels(Run(c, ops).cwnd - c.cwnd, c.cwnd, AckedBytes(ops));
  }

  lemma StepAvoids(c: Controller, op: Op, low: Positive)
    requires op.Acked? && op.sample.Some? && !c.inRecovery && c.cwnd >= c.ssthresh
    requires op.target <= low <= c.cwnd
    ensures var c' := Step(c, op);
            && c'.cwnd >= c.cwnd && !c'.inRecovery && c'.ssthresh == c.ssthresh
            && (c'.cwnd - c.cwnd) * low <= MAX_DATAGRAM_SIZE * op.bytes
  {
    AckGrows(c, op.bytes, op.sample, op.ackDelay, op.largestAcked, op.now, op.target);
    hide OnPacketAcked;
    Scaled(Step(c, op).cwnd - c.cwnd, low, c.cwnd);
  }

  lemma Scaled(grown: nat, low: Positive, high: Positive)
    requires low <= high
    ensures grown * low <= grown * high
  {
  }

  lemma Cancels(grown: int, cwnd: Positive, bytes: nat)
    ensures grown * cwnd <= MAX_DATAGRAM_SIZE * bytes && bytes <= cwnd ==> grown <= MAX_DATAGRAM_SIZE
  {
    if grown > MAX_DATAGRAM_SIZE && bytes <= cwnd {
      assert grown * cwnd > MAX_DATAGRAM_SIZE * cwnd;
      assert MAX_DATAGRAM_SIZE * cwnd >= MAX_DATAGRAM_SIZE * bytes;
    }
  }

  /** After a contraction, until persistent congestion collapses the window, it never
      goes back to slow start. */
  lemma {:induction false} NoSlowStartAfterLoss(c: Controller, ops: seq<Op>, i: nat, k: nat)
    requires i < k <= |ops| && Contracts(c, ops, i)
    requires forall n :: i < n < k ==> !ops[n].Persistent?
    ensures Run(c, ops[..k]).cwnd >= Run(c, ops[..k]).ssthresh
    decreases k
  {
    hide *;
    assert ops[..k][..k - 1] == ops[..k - 1] && ops[..k][k - 1] == ops[k - 1];
    var before := Run(c, ops[..k - 1]);
    RunLast(c, ops[..k]);
    if k - 1 > i {
      NoSlowStartAfterLoss(c, ops, i, k - 1);
      StepKeepsAvoidance(before, ops[k - 1]);
    } else {
      ContractsIs(c, ops, i);
      StepContracts(before, ops[i]);
    }
  }

  lemma RunLast(c: Controller, ops: seq<Op>)
    requires ops != []
    ensures Run(c, ops) == Step(Run(c, ops[..|ops| - 1]), ops[|ops| - 1])
  {
    hide Step;
  }

  lemma ContractsIs(c: Controller, ops: seq<Op>, k: nat)
    requires k < |ops|
    ensures Contracts(c, ops, k) <==> ops[k].Lost? && !Run(c, ops[..k]).inRecovery
  {
    hide Run;
  }

  lemma StepContracts(c: Controller, op: Op)
    requires op.Lost? && !c.inRecovery
    ensures Step(c, op).cwnd == Step(c, op).ssthresh
  {
    LossContracts(c, op.bytes, op.lastSentSeq);
  }

  lemma StepKeepsAvoidance(c: Controller, op: Op)
    requires c.cwnd >= c.ssthresh && !op.Persistent?
    ensures Step(c, op).cwnd >= Step(c, op).ssthresh
  {
    match op
    case Lost(bytes, last) => LossContracts(c, bytes, last);
    case Acked(bytes, sample, ackDelay, largest, now, target) =>
      AckGrows(c, bytes, sample, ackDelay, largest, now, target);
    case _ =>
  }

  /** Step `k` of the run contracts the window. */
  predicate Contracts(c: Controller, ops: seq<Op>, k: nat)
    requires k < |ops|
  {
    ops[k].Lost? && !Run(c, ops[..k]).inRecovery
  }

  predicate EndsEpoch(op: Op, lastSentSeq: int) {
    op.Acked? && op.sample.Some? && op.largestAcked > lastSentSeq
  }

  /** From a contraction on, either its epoch is still open or an ACK went past
      everything sent when it began. */
  lemma {:induction false} EpochOpenUntilAcked(c: Controller, ops: seq<Op>, i: nat, k: nat)
    requires i < k <= |ops| && Contracts(c, ops, i)
    requires forall n :: i < n < k ==> !ops[n].Persistent?
    ensures (Run(c, ops[..k]).inRecovery && Run(c, ops[..k]).recoveryEndSeq == ops[i].lastSentSeq)
            || exists n :: i < n < k && EndsEpoch(ops[n], ops[i].lastSentSeq)
    decreases k
  {
    assert ops[..k][..k - 1] == ops[..k - 1];
    if k - 1 > i {
      EpochOpenUntilAcked(c, ops, i, k - 1);
      if n :| i < n < k - 1 && EndsEpoch(ops[n], ops[i].lastSentSeq) {
        assert EndsEpoch(ops[n], ops[i].lastSentSeq);
      } else if EndsEpoch(ops[k - 1], ops[i].lastSentSeq) {
      } else {
        EpochKept(Run(c, ops[..k - 1]), ops[k - 1]);
      }
    }
  }

  lemma EpochKept(c: Controller, op: Op)
    requires c.inRecovery && !op.Persistent? && !EndsEpoch(op, c.recoveryEndSeq)
    ensures Step(c, op).inRecovery && Step(c, op).recoveryEndSeq == c.recoveryEndSeq
  {
  }

  /** Section 7.3.2 of RFC 9002: absent persistent congestion, between any two
      contractions the sender saw an ACK for a sequence beyond everything sent when
      the first of them happened. */
  lemma OneContractionPerEpoch(ops: seq<Op>, i: nat, j: nat)
    requires i < j < |ops| && Contracts(Fresh(), ops, i) && Contracts(Fresh(), ops, j)
    requires forall n :: i < n < j ==> !ops[n].Persistent?
    ensures exists n :: i < n < j && EndsEpoch(ops[n], ops[i].lastSentSeq)
  {
    EpochOpenUntilAcked(Fresh(), ops, i, j);
  }

  class CongestionController {
    var cwnd: Positive
    var ssthresh: nat
    var smoothedRtt: int
    var rttVar: int
    var minRtt: int
    var latestRtt: int
    var firstRttSample: bool
    var inflight: nat
    var inRecovery: bool
    var recoveryEndSeq: int
    var ptoTimer: Option<int>
    var ptoCount: nat
    var lastSendTime: Option<int>
    const pacer: PacingController

    function Snapshot(p: Pacer): Controller
      reads this
    {
      Controller(cwnd, ssthresh, smoothedRtt, rttVar, minRtt, latestRtt, firstRttSample, inflight,
                 inRecovery, recoveryEndSeq, ptoTimer, ptoCount, lastSendTime, p)
    }

    ghost function Model(): Controller
      reads this, pacer
    {
      Snapshot(pacer.Model())
    }

    constructor ()
      ensures Model() == Fresh() && fresh(pacer)
    {
      cwnd, ssthresh := INITIAL_CWND, MAX_INT;
      smoothedRtt, rttVar, minRtt, latestRtt, firstRttSample := INITIAL_RTT, INITIAL_RTT / 2, 0, 0, true;
      inflight, inRecovery, recoveryEndSeq := 0, false, -1;
      ptoTimer, ptoCount, lastSendTime := None, 0, None;
      pacer := new PacingController();
    }

    method ArmPtoTimer(now: int)
      modifies this
      ensures Model() == ArmPto(old(Model()), now)
    {
      var wait := NextPto(Snapshot(Unpaced()));
      SamePto(Snapshot(Unpaced()), Model());
      if lastSendTime.Some? {
        var remaining := lastSendTime.value + NextPto(Snapshot(Unpaced())) - now;
        if remaining < wait { wait := remaining; }
      }
      if wait < GRANULARITY { wait := GRANULARITY; }
      ptoTimer := Some(now + wait);
    }

    method BookSent(bytes: nat, now: int)
      modifies this
      ensures Model() == OnPacketSent(old(Model()), bytes, now)
    {
      inflight := inflight + bytes;
      lastSendTime := Some(now);
      ArmPtoTimer(now);
    }

    method UpdatePacingRate()
      modifies pacer
      ensures Model() == Repaced(old(Model()))
    {
      if firstRttSample { return; }
      pacer.SetRate(cwnd, smoothedRtt, cwnd < ssthresh);
    }

    method TakeRttSample(sentTime: int, ackDelay: int, now: int)
      modifies this
      ensures Model() == UpdateRtt(old(Model()), sentTime, ackDelay, now)
    {
      var latest := now - sentTime;
      if latest < 0 { return; }
      if firstRttSample {
        firstRttSample, latestRtt, minRtt := false, latest, latest;
        smoothedRtt, rttVar := latest, latest / 2;
        return;
      }
      if latest < minRtt { minRtt := latest; }
      var delay := if ackDelay > MAX_ACK_DELAY then MAX_ACK_DELAY else ackDelay;
      if latest >= minRtt + delay { latest := latest - delay; }
      latestRtt := latest;
      var sample := smoothedRtt - latest;
      if sample < 0 { sample := -sample; }
      rttVar := (3 * rttVar + sample) / 4;
      smoothedRtt := (7 * smoothedRtt + latest) / 8;
    }

    method GrowWindow(bytes: nat, sentTime: int, ackDelay: int, largestAcked: int, now: int, target: int)
      modifies this
      ensures Model() == Grown(old(Model()), bytes, sentTime, ackDelay, largestAcked, now, target)
    {
      TakeRttSample(sentTime, ackDelay, now);
      if inRecovery {
        if largestAcked > recoveryEndSeq { inRecovery := false; }
      }
      if !inRecovery {
        if cwnd < ssthresh {
          cwnd := cwnd + bytes;
        } else {
          cwnd := CubicWindow(cwnd, bytes, target);
        }
      }
    }

    method BookAcked(bytes: nat, sample: Option<int>, ackDelay: int, largestAcked: int, now: int, target: int)
      modifies this, pacer
      ensures Model() == OnPacketAcked(old(Model()), bytes, sample, ackDelay, largestAcked, now, target)
      ensures inflight == Max(old(inflight) - bytes, 0) && ssthresh == old(ssthresh) && cwnd >= old(cwnd)
      ensures sample.None? || inRecovery ==> cwnd == old(cwnd)
      ensures sample.Some? && !inRecovery && old(cwnd) < ssthresh ==> cwnd == old(cwnd) + bytes
    {
      hide OnPacketAcked;
      AckWindow(Model(), bytes, sample, ackDelay, largestAcked, now, target);
      TakeAck(bytes, sample, ackDelay, largestAcked, now, target);
    }

    method TakeAck(bytes: nat, sample: Option<int>, ackDelay: int, largestAcked: int, now: int, target: int)
      modifies this, pacer
      ensures Model() == OnPacketAcked(old(Model()), bytes, sample, ackDelay, largestAcked, now, target)
    {
      hide UpdateRate, NextPto, UpdateRtt, CubicWindow;
      inflight := if inflight < bytes then 0 else inflight - bytes;
      if sample.Some? {
        GrowWindow(bytes, sample.value, ackDelay, largestAcked, now, target);
      }
      ptoTimer := None;
      ptoCount := 0;
      if inflight > 0 { ArmPtoTimer(now); }
      UpdatePacingRate();
    }

    method Contract(lastSentSeq: int)
      modifies this, pacer
      ensures Model() == OnCongestionEvent(old(Model()), lastSentSeq)
    {
      if inRecovery { return; }
      inRecovery := true;
      recoveryEndSeq := lastSentSeq;
      ssthresh := cwnd * 7 / 10;
      if ssthresh < MIN_CWND { ssthresh := MIN_CWND; }
      cwnd := ssthresh;
      UpdatePacingRate();
    }

    method BookLost(bytes: nat, lastSentSeq: int)
      modifies this, pacer
      ensures Model() == OnPacketLost(old(Model()), bytes, lastSentSeq)
    {
      inflight := if inflight < bytes then 0 else inflight - bytes;
      Contract(lastSentSeq);
    }

    method Collapse()
      modifies this, pacer
      ensures Model() == OnPersistentCongestion(old(Model()))
    {
      cwnd, inRecovery, recoveryEndSeq := MIN_CWND, false, -1;
      UpdatePacingRate();
    }

    /** Three times the wait the probe timer would be set to with no timeout behind it. */
    method PersistentDuration() returns (d: int)
      ensures d == PersistentCongestionDuration(Model())
      ensures d == 3 * NextPto(Model().(ptoCount := 0))
    {
      var variation := if 4 * rttVar < GRANULARITY then GRANULARITY else 4 * rttVar;
      d := (smoothedRtt + variation + MAX_ACK_DELAY) * PERSISTENT_CONGESTION_THRESHOLD;
    }

    method ExpirePto()
      modifies this
      ensures Model() == PtoExpired(old(Model()))
    {
      ptoCount := ptoCount + 1;
      ptoTimer := None;
    }

    method RearmPto(now: int)
      modifies this
      ensures Model() == PtoRearmed(old(Model()), now)
    {
      SamePto(Snapshot(Unpaced()), Model());
      if inflight > 0 && ptoTimer.None? {
        var wait := NextPto(Snapshot(Unpaced()));
        lastSendTime := Some(now);
        ptoTimer := Some(now + wait);
      }
    }
  }

  lemma SamePto(a: Controller, b: Controller)
    requires a == b.(pacer := a.pacer)
    ensures NextPto(a) == NextPto(b)
  {
  }
}
