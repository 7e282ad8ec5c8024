/** What the sending half lets out: the queue of lost packets goes out oldest first, within
    the congestion window and the pacer's budget, and stops for exactly one of the two;
    a write hands over what the window and the peer's limit admit. */
module Admission {
  import opened Frames
  import opened Packets
  import opened Custody
  import opened Sending
  import opened Recovery
  import opened Runs
  import opened Unmoved
  import opened Outcomes
  import Congestion
  import Credit
  import EndToEnd
  import FlowControl
  import Pacing
  import Streams

  // ----- Window and budget while the queue drains -----

  /** What the pacer's budget holds; nothing is drawn from an unpaced one. */
  function Budget(c: Conn, now: int): real {
    if c.cc.pacer.rate.None? then 0.0 else Pacing.Budget(c.cc.pacer, c.cc.pacer.rate.value, now)
  }

  /** From `c` to `c'` bytes were put in flight, but not past the window, and every one of
      them was drawn from the pacer's budget. */
  predicate Drains(c: Conn, c': Conn, now: int) {
    && c'.cc.cwnd == c.cc.cwnd && c'.cc.pacer.rate == c.cc.pacer.rate && c'.mtu == c.mtu && c'.hdr == c.hdr
    && c.cc.inflight <= c'.cc.inflight <= Max(c.cc.inflight, c.cc.cwnd)
    && (c.cc.pacer.rate.Some? ==> Budget(c, now) - Budget(c', now) == (c'.cc.inflight - c.cc.inflight) as real)
  }

  lemma DrainsTrans(a: Conn, b: Conn, c: Conn, now: int)
    requires Drains(a, b, now) && Drains(b, c, now)
    ensures Drains(a, c, now)
  {
    hide Budget;
  }

  /** The controller and the search are as they were, so the queue may move. */
  lemma DrainsNothing(c: Conn, c': Conn, now: int)
    requires c'.cc == c.cc && c'.mtu == c.mtu && c'.hdr == c.hdr
    ensures Drains(c, c', now)
  {
    hide Pacing.Budget;
  }

  lemma SendDrains(c: Conn, p: SentPacket, now: int)
    requires c.cc.inflight + p.size <= c.cc.cwnd && Retransmit(c, p, now).Some?
    ensures Drains(c, Booked(Retransmit(c, p, now).value, p.size, now), now)
  {
    BookedCosts(Retransmit(c, p, now).value, p.size, now);
    hide Budget, Booked;
    Untouched(c, Retransmit(c, p, now).value, now);
  }

  lemma Untouched(c: Conn, c': Conn, now: int)
    requires c'.cc == c.cc
    ensures Budget(c', now) == Budget(c, now)
  {
  }

  lemma BookedCosts(c: Conn, size: nat, now: int)
    ensures var c' := Booked(c, size, now);
            && c'.cc.cwnd == c.cc.cwnd && c'.cc.inflight == c.cc.inflight + size
            && c'.cc.pacer.rate == c.cc.pacer.rate && c'.mtu == c.mtu && c'.hdr == c.hdr
            && (c.cc.pacer.rate.Some? ==> Budget(c', now) == Budget(c, now) - size as real)
  {
    Pacing.SendDraws(c.cc.pacer, size, now);
    hide Pacing.OnSent, Pacing.Budget, Congestion.NextPto;
  }

  /** Draining the queue never takes the flight past the window, and takes as much out of
      the pacer's budget as it puts in flight. */
  lemma {:induction false} FlushDrains(c: Conn, now: int)
    ensures Drains(c, Flush(c, now), now)
    decreases Oversized(c.queue, c.mtu.current), |c.queue|
  {
    DrainsNothing(c, c, now);
    hide Drains, Split, Pieces, MustSplit, Retransmit, Booked, Pacing.TimeUntilSend;
    if c.queue != [] {
      var p, rest := c.queue[0], c.queue[1..];
      assert c.queue == [p] + rest;
      if p.isAcked {
        DrainsOn(c, c.(queue := rest), now);
        FlushDrains(c.(queue := rest), now);
        DrainsTrans(c, c.(queue := rest), Flush(c.(queue := rest), now), now);
      } else if MustSplit(c, p) {
        SplitShrinks(c, p, rest);
        SplitAlone(c, p);
        var c1 := Split(c, p).(queue := Pieces(c, p) + rest);
        DrainsOn(c, c1, now);
        FlushDrains(c1, now);
        DrainsTrans(c, c1, Flush(c1, now), now);
      } else if Pacing.TimeUntilSend(c.cc.pacer, now) > 0 {
        DrainsOn(c, c.(lostTimer := Some(now + Pacing.TimeUntilSend(c.cc.pacer, now))), now);
      } else if c.cc.inflight + p.size <= c.cc.cwnd {
        HeadDrains(c, p, rest, now);
        var c1 := c.(queue := rest);
        var c2 := if Retransmit(c1, p, now).None? then c1 else Booked(Retransmit(c1, p, now).value, p.size, now);
        FlushDrains(c2, now);
        DrainsTrans(c, c2, Flush(c2, now), now);
      }
    }
  }

  lemma DrainsOn(c: Conn, c': Conn, now: int)
    requires c'.cc == c.cc && c'.mtu == c.mtu && c'.hdr == c.hdr
    ensures Drains(c, c', now)
  {
    DrainsNothing(c, c', now);
  }

  lemma SplitAlone(c: Conn, p: SentPacket)
    requires MustSplit(c, p)
    ensures var c' := Split(c, p);
            c'.cc == c.cc && c'.mtu == c.mtu && c'.hdr == c.hdr && c'.lostTimer == c.lostTimer && c'.wire == c.wire
            && c'.pm.nextSeq == c.pm.nextSeq
  {
    hide PieceFrames, PieceSpans;
  }

  lemma HeadDrains(c: Conn, p: SentPacket, rest: seq<SentPacket>, now: int)
    requires c.cc.inflight + p.size <= c.cc.cwnd && c.queue == [p] + rest
    ensures var c1 := c.(queue := rest);
            var c2 := if Retransmit(c1, p, now).None? then c1 else Booked(Retransmit(c1, p, now).value, p.size, now);
            Drains(c, c2, now) && c2.queue == rest && c2.mtu == c.mtu && c2.lostTimer == c.lostTimer && c2.hdr == c.hdr
  {
    var c1 := c.(queue := rest);
    DrainsNothing(c, c1, now);
    if Retransmit(c1, p, now).Some? {
      SendDrains(c1, p, now);
      DrainsTrans(c, c1, Booked(Retransmit(c1, p, now).value, p.size, now), now);
    }
    hide Drains, Congestion.NextPto, Pacing.OnSent;
  }

  /** The queue is left for one of two reasons. Either its first packet does not fit the
      window; or the pacer's budget does not hold a datagram, and the timer is set for the
      first moment, a millisecond off at the least, when it will. */
  predicate StopsFor(c: Conn, now: int) {
    && c.queue != [] && !c.queue[0].isAcked && !MustSplit(c, c.queue[0])
    && (c.lostTimer.None? ==> c.cc.inflight + c.queue[0].size > c.cc.cwnd)
    && (c.lostTimer.Some? ==> c.cc.pacer.rate.Some? && WaitsUntil(c.cc.pacer, now, c.lostTimer.value))
  }

  predicate WaitsUntil(p: Pacing.Pacer, now: int, at: int)
    requires p.rate.Some?
  {
    && !Pacing.CoversAt(p, p.rate.value, now) && Pacing.CoversAt(p, p.rate.value, at)
    && at >= now + MILLISECOND && (at > now + MILLISECOND ==> !Pacing.CoversAt(p, p.rate.value, at - 1))
  }

  lemma PacerWaits(p: Pacing.Pacer, now: int)
    requires Pacing.TimeUntilSend(p, now) > 0
    ensures p.rate.Some? && WaitsUntil(p, now, now + Pacing.TimeUntilSend(p, now))
  {
    var wait := Pacing.TimeUntilSend(p, now);
    Pacing.CoversFrom(p, now, wait);
    if wait > MILLISECOND { Pacing.CoversFrom(p, now, wait - 1); }
  }

  lemma {:induction false} FlushStops(c: Conn, now: int)
    requires c.lostTimer.None?
    ensures var c' := Flush(c, now);
            if c'.queue == [] then c'.lostTimer.None? else StopsFor(c', now)
    decreases Oversized(c.queue, c.mtu.current), |c.queue|
  {
    hide Split, Pieces, MustSplit, Retransmit, Booked, WaitsUntil, Pacing.TimeUntilSend;
    if c.queue != [] {
      var p, rest := c.queue[0], c.queue[1..];
      assert c.queue == [p] + rest;
      if p.isAcked {
        FlushStops(c.(queue := rest), now);
      } else if MustSplit(c, p) {
        SplitShrinks(c, p, rest);
        SplitAlone(c, p);
        FlushStops(Split(c, p).(queue := Pieces(c, p) + rest), now);
      } else if Pacing.TimeUntilSend(c.cc.pacer, now) > 0 {
        PacerWaits(c.cc.pacer, now);
        StillWhole(c, c.(lostTimer := Some(now + Pacing.TimeUntilSend(c.cc.pacer, now))), p);
      } else if c.cc.inflight + p.size <= c.cc.cwnd {
        HeadDrains(c, p, rest, now);
        var c1 := c.(queue := rest);
        FlushStops(if Retransmit(c1, p, now).None? then c1 else Booked(Retransmit(c1, p, now).value, p.size, now), now);
      }
    }
  }

  lemma StillWhole(c: Conn, c': Conn, p: SentPacket)
    requires c'.mtu == c.mtu && c'.hdr == c.hdr
    ensures MustSplit(c', p) <==> MustSplit(c, p)
  {
  }

  /** Draining the lost queue: the flight stays within the window, the window stays, the
      pacer is charged for every byte, and the queue is emptied or stops for cause. */
  lemma QueueAdmitted(c: Conn, now: int)
    ensures var c' := FlushLost(c, now);
            && c'.cc.cwnd == c.cc.cwnd && c.cc.inflight <= c'.cc.inflight
            && (c'.cc.inflight == c.cc.inflight || c'.cc.inflight <= c'.cc.cwnd)
            && (c.cc.pacer.rate.Some? ==>
                  Budget(c, now) - Budget(c', now) == (c'.cc.inflight - c.cc.inflight) as real)
            && (c'.queue == [] ==> c'.lostTimer.None?)
            && (c'.queue != [] && c'.lostTimer.None? ==> c'.cc.inflight + c'.queue[0].size > c'.cc.cwnd)
            && (c'.queue != [] ==> StopsFor(c', now))
  {
    var c0 := c.(lostTimer := None);
    FlushLostIs(c, now);
    FlushDrains(c0, now);
    FlushStops(c0, now);
    Untouched(c, c0, now);
    hide Flush, FlushLost, Budget, WaitsUntil, MustSplit;
  }

  /** An ACK that takes anything has the queue drained again, whether or not it finds
      anything lost. */
  lemma AckDrainsQueue(c: Conn, f: AckFrame, now: int, target: int)
    requires HandleAck(c.pm, f, now).1 != []
    ensures var c' := HandleAckFrame(c, f, now, target);
            && (c'.queue == [] ==> c'.lostTimer.None?)
            && (c'.queue != [] && c'.lostTimer.None? ==> c'.cc.inflight + c'.queue[0].size > c'.cc.cwnd)
            && (c'.lostTimer.Some? ==> c'.cc.pacer.rate.Some? && WaitsUntil(c'.cc.pacer, now, c'.lostTimer.value))
  {
    hide *;
    HandleAckIs(c, f, now, target);
    var c2 := DetectLost(AckTaken(c, f, now, target), now);
    QueueAdmitted(c2, now);
    StopsIs(FlushLost(c2, now), now);
    ProbeMtuWindow(FlushLost(c2, now), now);
  }

  lemma StopsIs(c: Conn, now: int)
    ensures StopsFor(c, now) && c.lostTimer.Some? ==>
              c.cc.pacer.rate.Some? && WaitsUntil(c.cc.pacer, now, c.lostTimer.value)
  {
    hide WaitsUntil, MustSplit;
  }

  // ----- Probe timeouts -----

  lemma ProbeCosts(c: Conn, p: SentPacket, now: int)
    requires IsData(p) && !p.isAcked
    ensures var c' := ProbeWith(c, p, now);
            && c'.mtu == c.mtu && c'.hdr == c.hdr && c'.cc.pacer.rate == c.cc.pacer.rate && c'.log == c.log
            && (c.cc.pacer.rate.Some? ==> Budget(c', now) == Budget(c, now) - p.size as real)
  {
    Pacing.SendDraws(c.cc.pacer, p.size, now);
    hide Pacing.OnSent, Pacing.Budget, FrameOf;
  }

  lemma {:induction false} ProbeAllCosts(c: Conn, ps: seq<SentPacket>, now: int)
    requires forall p <- ps :: IsData(p) && !p.isAcked
    ensures var c' := Probe(c, ps, now);
            && c'.mtu == c.mtu && c'.hdr == c.hdr && c'.cc.pacer.rate == c.cc.pacer.rate && c'.log == c.log
            && (c.cc.pacer.rate.Some? ==> Budget(c, now) - Budget(c', now) == DataSize(ps) as real)
  {
    hide ProbeWith, Budget;
    if ps != [] {
      var init, p := ps[..|ps| - 1], ps[|ps| - 1];
      assert p in ps && forall q :: q in init ==> q in ps;
      ProbeAllCosts(c, init, now);
      ProbeCosts(Probe(c, init, now), p, now);
    }
  }

  /** The packet is whole, and as large as what it carries. */
  predicate Whole(c: Conn, p: SentPacket) {
    IsData(p) && !p.isAcked && p.size == PacketSize(c, FrameOf(p))
  }

  lemma ProbeOneCosts(c: Conn, p: SentPacket, now: int)
    requires Whole(c, p)
    ensures var c' := ProbeOne(c, p, now);
            && c'.mtu == c.mtu && c'.hdr == c.hdr && c'.cc.pacer.rate == c.cc.pacer.rate
            && c.log.unbooked <= c'.log.unbooked
            && (c.cc.pacer.rate.Some? ==>
                  Budget(c, now) - Budget(c', now) == (p.size + c'.log.unbooked - c.log.unbooked) as real)
  {
    if MustSplit(c, p) {
      PiecesSize(c, p);
      PiecesAreData(c, p);
      SplitAlone(c, p);
      var c1 := SplitUnbooked(c, p);
      ProbeAllCosts(c1, Pieces(c, p), now);
      Untouched(c, c1, now);
      hide Split, Pieces, Probe, Budget, DataSize, ExtraHeaders, MustSplit;
    } else {
      ProbeCosts(c, p, now);
      hide ProbeWith, Budget, MustSplit;
    }
  }

  lemma PiecesAreData(c: Conn, p: SentPacket)
    requires MustSplit(c, p)
    ensures forall q <- Pieces(c, p) :: IsData(q) && !q.isAcked
  {
    hide PieceFrames;
  }

  lemma {:induction false} ProbeEachCosts(c: Conn, ps: seq<SentPacket>, now: int)
    requires forall p <- ps :: Whole(c, p)
    ensures var c' := ProbeEach(c, ps, now);
            && c'.mtu == c.mtu && c'.hdr == c.hdr && c'.cc.pacer.rate == c.cc.pacer.rate
            && c.log.unbooked <= c'.log.unbooked
            && (c.cc.pacer.rate.Some? ==>
                  Budget(c, now) - Budget(c', now) == (DataSize(ps) + c'.log.unbooked - c.log.unbooked) as real)
  {
    hide ProbeOne, Budget;
    if ps != [] {
      var init, p := ps[..|ps| - 1], ps[|ps| - 1];
      assert p in ps && forall q :: q in init ==> q in ps;
      ProbeEachCosts(c, init, now);
      ProbeOneCosts(ProbeEach(c, init, now), p, now);
    }
  }

  /** What a probe timeout sends again is drawn from the pacer, the headers it adds by
      re-chunking included, though none of it is held to the window or booked. */
  lemma TimeoutDraws(c: Conn, now: int)
    requires Steady(c) && c.cc.pacer.rate.Some?
    ensures var c' := PtoFires(c, now);
            && c'.cc.pacer.rate == c.cc.pacer.rate && c'.cc.inflight == c.cc.inflight
            && Budget(c, now) - Budget(c', now) ==
               (DataSize(Oldest(c.pm, 2)) + c'.log.unbooked - c.log.unbooked) as real
  {
    PtoSteady(c, now);
    OldestWhole(c);
    PtoCosts(c, now);
  }

  lemma OldestWhole(c: Conn)
    requires Steady(c)
    ensures forall p <- Oldest(c.pm, 2) :: Whole(c, p)
  {
    SteadyKeyed(c);
    OldestTracked(c.pm, 2);
    hide Oldest;
    forall p | p in Oldest(c.pm, 2) ensures Whole(c, p) {
      TrackedLive(ViewOf(c), p.sequence);
    }
  }

  lemma PtoCosts(c: Conn, now: int)
    requires (forall p <- Oldest(c.pm, 2) :: Whole(c, p)) && c.cc.pacer.rate.Some?
    ensures var c' := PtoFires(c, now);
            && c'.cc.pacer.rate == c.cc.pacer.rate
            && Budget(c, now) - Budget(c', now) ==
               (DataSize(Oldest(c.pm, 2)) + c'.log.unbooked - c.log.unbooked) as real
  {
    var c0 := c.(cc := Congestion.PtoExpired(c.cc));
    OnPtoIs(c0, now);
    var c1 := AtPto(c0, now);
    assert c1.pm == c.pm && c1.hdr == c.hdr && c1.cc.pacer == c.cc.pacer && c1.log == c.log;
    assert forall p <- Oldest(c1.pm, 2) :: Whole(c1, p);
    ProbeEachCosts(c1, Oldest(c1.pm, 2), now);
    hide OnPto, ProbeEach, Oldest, DataSize, Congestion.NextPto, Pacing.Budget, Whole;
  }

  // ----- Oldest first -----

  type Carriage = (nat, StreamFrame)

  /** The frames a packet goes out as: itself, its pieces, or none once acknowledged. */
  function Out(c: Conn, p: SentPacket): seq<Carriage> {
    if !IsData(p) || p.isAcked then []
    else if MustSplit(c, p) then Pair(p.streamId, PieceFrames(c, p))
    else [(p.streamId, FrameOf(p))]
  }

  function Pair(stream: nat, fs: seq<StreamFrame>): seq<Carriage> {
    seq(|fs|, i requires 0 <= i < |fs| => (stream, fs[i]))
  }

  /** The frames a queue goes out as, in order. */
  function Plan(c: Conn, q: seq<SentPacket>): seq<Carriage> {
    if q == [] then [] else Out(c, q[0]) + Plan(c, q[1..])
  }

  predicate AllData(q: seq<SentPacket>) { forall p <- q :: IsData(p) }

  /** From sequence `lo` on the wire carries `out`. */
  predicate Carried(c: Conn, lo: nat, out: seq<Carriage>) {
    forall i :: 0 <= i < |out| ==> CarriedAt(c, lo + i, out[i])
  }

  predicate CarriedAt(c: Conn, s: nat, out: Carriage) {
    s in c.wire && c.wire[s].stream == out.0 && c.wire[s].frame == out.1
  }

  lemma {:induction false} PlanConcat(c: Conn, a: seq<SentPacket>, b: seq<SentPacket>)
    ensures Plan(c, a + b) == Plan(c, a) + Plan(c, b)
  {
    hide Out;
    if a == [] {
      assert a + b == b;
    } else {
      assert (a + b)[1..] == a[1..] + b && (a + b)[0] == a[0];
      PlanConcat(c, a[1..], b);
      assert Out(c, a[0]) + (Plan(c, a[1..]) + Plan(c, b)) == Out(c, a[0]) + Plan(c, a[1..]) + Plan(c, b);
    }
  }

  /** What goes out depends only on the size the path carries. */
  lemma {:induction false} PlanSame(c: Conn, c': Conn, q: seq<SentPacket>)
    requires c'.mtu == c.mtu && c'.hdr == c.hdr
    ensures Plan(c', q) == Plan(c, q)
  {
    if q != [] {
      PlanSame(c, c', q[1..]);
      OutSame(c, c', q[0]);
      hide Out;
    }
  }

  lemma OutSame(c: Conn, c': Conn, p: SentPacket)
    requires c'.mtu == c.mtu && c'.hdr == c.hdr
    ensures Out(c', p) == Out(c, p)
  {
    hide Streams.Chunks;
  }

  /** Packets the path carries whole go out as themselves. */
  lemma {:induction false} PlanWhole(c: Conn, q: seq<SentPacket>, stream: nat, fs: seq<StreamFrame>)
    requires |q| == |fs| && forall i :: 0 <= i < |q| ==>
               q[i].frames == [Stream(fs[i])] && q[i].streamId == stream && q[i].size <= c.mtu.current
               && !q[i].isAcked && !q[i].probe
    ensures Plan(c, q) == Pair(stream, fs)
  {
    if q != [] {
      PlanWhole(c, q[1..], stream, fs[1..]);
      assert Out(c, q[0]) == [(stream, fs[0])];
      assert Pair(stream, fs) == [(stream, fs[0])] + Pair(stream, fs[1..]);
    }
  }

  /** Re-chunking the head of the queue does not change what goes out. */
  lemma PlanSplit(c: Conn, p: SentPacket, rest: seq<SentPacket>)
    requires MustSplit(c, p) && IsData(p) && !p.isAcked
    ensures Plan(c, Pieces(c, p) + rest) == Plan(c, [p] + rest)
  {
    PiecesCarryAll(c, p);
    var fs, ps := PieceFrames(c, p), Pieces(c, p);
    PlanWhole(c, ps, p.streamId, fs);
    hide PieceFrames, Pieces, IsData;
    PlanConcat(c, ps, rest);
    assert ([p] + rest)[1..] == rest && ([p] + rest)[0] == p;
    hide Plan;
    PlanFirst(c, [p] + rest);
  }

  lemma PlanFirst(c: Conn, q: seq<SentPacket>)
    requires q != []
    ensures Plan(c, q) == Out(c, q[0]) + Plan(c, q[1..])
  {
    hide Out;
  }

  /** Of the frames planned, those from sequence `lo` to `hi` are on the wire and the others
      are left. */
  predicate Moved(plan: seq<Carriage>, left: seq<Carriage>, lo: nat, hi: nat, c: Conn) {
    lo <= hi <= lo + |plan| && Carried(c, lo, plan[..hi - lo]) && left == plan[hi - lo..]
  }

  /** What was on the wire below `n` still is. */
  predicate WireKept(c: Conn, c': Conn, n: nat) {
    forall s <- c.wire :: s < n ==> s in c'.wire && c'.wire[s] == c.wire[s]
  }

  /** From `c` to `c'` the first frames of the plan went out under the next sequences, and
      the rest of the plan is what the queue still holds. */
  predicate Dispatched(c: Conn, c': Conn) {
    && Moved(Plan(c, c.queue), Plan(c, c'.queue), c.pm.nextSeq, c'.pm.nextSeq, c')
    && WireKept(c, c', c.pm.nextSeq)
  }

  lemma DispatchedNone(c: Conn, c': Conn)
    requires c'.pm.nextSeq == c.pm.nextSeq && c'.wire == c.wire
    requires Plan(c, c'.queue) == Plan(c, c.queue)
    ensures Dispatched(c, c')
  {
    hide Plan;
  }

  lemma DispatchedTrans(a: Conn, b: Conn, c: Conn)
    requires Dispatched(a, b) && Dispatched(b, c) && b.mtu == a.mtu && b.hdr == a.hdr
    ensures Dispatched(a, c)
  {
    hide Plan, Moved, WireKept;
    PlanSame(a, b, b.queue);
    PlanSame(a, b, c.queue);
    MovedTrans(Plan(a, a.queue), Plan(a, b.queue), Plan(a, c.queue), a.pm.nextSeq, b.pm.nextSeq, c.pm.nextSeq, b, c);
    KeptTrans(a, b, c, a.pm.nextSeq, b.pm.nextSeq);
  }

  lemma KeptTrans(a: Conn, b: Conn, c: Conn, n: nat, m: nat)
    requires WireKept(a, b, n) && WireKept(b, c, m)
    ensures n <= m ==> WireKept(a, c, n)
  {
  }

  lemma MovedTrans(plan: seq<Carriage>, mid: seq<Carriage>, left: seq<Carriage>, lo: nat, at: nat, hi: nat,
                   b: Conn, c: Conn)
    requires Moved(plan, mid, lo, at, b) && Moved(mid, left, at, hi, c) && WireKept(b, c, at)
    ensures Moved(plan, left, lo, hi, c) && lo <= at
  {
    hide Carried;
    SliceAgain(plan, at - lo, hi - lo);
    CarriedJoin(b, c, lo, plan, at - lo, hi - lo);
  }

  lemma SliceAgain(all: seq<Carriage>, n: nat, k: nat)
    requires n <= k <= |all|
    ensures all[n..][k - n..] == all[k..] && all[n..][..k - n] == all[n..k]
  {
  }

  lemma CarriedJoin(b: Conn, c: Conn, lo: nat, all: seq<Carriage>, n: nat, k: nat)
    requires n <= k <= |all| && Carried(b, lo, all[..n]) && Carried(c, lo + n, all[n..k])
    requires WireKept(b, c, lo + n)
    ensures Carried(c, lo, all[..k])
  {
    var out := all[..k];
    forall i | 0 <= i < |out| ensures CarriedAt(c, lo + i, out[i]) {
      if i < n {
        assert all[..n][i] == out[i] && CarriedAt(b, lo + i, all[..n][i]);
      } else {
        assert all[n..k][i - n] == out[i] && CarriedAt(c, lo + n + (i - n), all[n..k][i - n]);
      }
    }
  }

  lemma HeadDispatched(c: Conn, p: SentPacket, rest: seq<SentPacket>, now: int)
    requires c.queue == [p] + rest && !p.isAcked && !MustSplit(c, p) && AllData(c.queue)
    ensures Retransmit(c.(queue := rest), p, now).Some?
    ensures var c' := Booked(Retransmit(c.(queue := rest), p, now).value, p.size, now);
            Dispatched(c, c') && c'.mtu == c.mtu && c'.hdr == c.hdr && c'.queue == rest && AllData(rest)
  {
    assert p in c.queue && c.queue[1..] == rest && c.queue[0] == p;
    var c' := Booked(Retransmit(c.(queue := rest), p, now).value, p.size, now);
    hide Congestion.OnPacketSent, Pacing.OnSent;
    assert Plan(c, c.queue) == [(p.streamId, FrameOf(p))] + Plan(c, rest);
    assert forall q <- rest :: q in c.queue;
    hide Plan, IsData, MustSplit;
  }

  /** The lost queue goes out oldest first: what was sent is the start of the plan, under
      consecutive sequences, and what is left is the rest of it. */
  lemma {:induction false} FlushInOrder(c: Conn, now: int)
    requires AllData(c.queue)
    ensures Dispatched(c, Flush(c, now))
    decreases Oversized(c.queue, c.mtu.current), |c.queue|
  {
    hide Dispatched, AllData, Split, Pieces, MustSplit, Retransmit, Booked, Plan, Carried, PieceFrames, FrameOf;
    hide Congestion.CanSend, Pacing.TimeUntilSend;
    DispatchedNone(c, c);
    if c.queue != [] {
      var p, rest := c.queue[0], c.queue[1..];
      assert c.queue == [p] + rest;
      if p.isAcked {
        SkipDispatched(c, p, rest);
        FlushInOrder(c.(queue := rest), now);
        DispatchedTrans(c, c.(queue := rest), Flush(c.(queue := rest), now));
      } else if MustSplit(c, p) {
        SplitShrinks(c, p, rest);
        SplitDispatched(c, p, rest);
        var c1 := Split(c, p).(queue := Pieces(c, p) + rest);
        FlushInOrder(c1, now);
        DispatchedTrans(c, c1, Flush(c1, now));
      } else if Pacing.TimeUntilSend(c.cc.pacer, now) > 0 {
        DispatchedNone(c, c.(lostTimer := Some(now + Pacing.TimeUntilSend(c.cc.pacer, now))));
      } else if Congestion.CanSend(c.cc, p.size) {
        HeadDispatched(c, p, rest, now);
        var c1 := Booked(Retransmit(c.(queue := rest), p, now).value, p.size, now);
        FlushInOrder(c1, now);
        DispatchedTrans(c, c1, Flush(c1, now));
      }
    }
  }

  lemma SkipDispatched(c: Conn, p: SentPacket, rest: seq<SentPacket>)
    requires c.queue == [p] + rest && p.isAcked && AllData(c.queue)
    ensures Dispatched(c, c.(queue := rest)) && AllData(rest)
  {
    assert AllData(rest) by { assert forall q <- rest :: q in c.queue; }
    hide AllData;
    assert c.queue[1..] == rest && c.queue[0] == p;
    assert Plan(c, c.queue) == Plan(c, rest) by {
      PlanFirst(c, c.queue);
      hide Plan;
      assert Out(c, p) == [];
      assert [] + Plan(c, rest) == Plan(c, rest);
    }
    DispatchedNone(c, c.(queue := rest));
  }

  lemma SplitDispatched(c: Conn, p: SentPacket, rest: seq<SentPacket>)
    requires c.queue == [p] + rest && !p.isAcked && MustSplit(c, p) && AllData(c.queue)
    ensures var c' := Split(c, p).(queue := Pieces(c, p) + rest);
            Dispatched(c, c') && c'.mtu == c.mtu && c'.hdr == c.hdr && AllData(c'.queue)
  {
    assert p in c.queue && forall q <- rest :: q in c.queue;
    forall q | q in Pieces(c, p) ensures IsData(q) {
      hide PieceFrames;
    }
    PlanSplit(c, p, rest);
    SplitAlone(c, p);
    hide Plan, Pieces, Split, MustSplit, IsData;
    DispatchedNone(c, Split(c, p).(queue := Pieces(c, p) + rest));
  }

  // ----- Over a run -----

  /** Every step but a write or a close leaves the flight where it was, or within the
      window. */
  lemma StepWithinWindow(c: Conn, step: Step)
    requires Rest(c) && Possible(c, step) && !step.Writes? && !step.Closes?
    ensures var c' := Apply(c, step); c'.cc.inflight <= c.cc.inflight || c'.cc.inflight <= c'.cc.cwnd
  {
    hide *;
    ApplyIs(c, step);
    match step
    case Acks(f, now, target) => AckWithinWindow(c, f, now, target);
    case LossTimer(now) =>
      LossTimerIs(c, now);
      DetectWithinWindow(ForTimer(c), now);
    case LostTimer(now) => QueueAdmitted(c, now);
    case Pto(now) =>
      RestIs(c);
      PtoSteady(c, now);
  }

  lemma DetectWithinWindow(c: Conn, now: int)
    ensures var c' := DetectLost(c, now); c'.cc.inflight <= c.cc.inflight || c'.cc.inflight <= c'.cc.cwnd
  {
    var (pm, lost) := Detect(c.pm, now, LossDelay(c.cc.smoothedRtt, c.cc.latestRtt));
    var c1 := c.(pm := pm, mtu := MtuAfterLoss(c.mtu, lost, !c.ackedLarge, now));
    hide Detect, LossDelay, DataOnly, MtuAfterLoss, FlushLost, CcAfterLoss;
    if lost != [] && DataOnly(lost) != [] {
      LossSamples(c.cc, DataOnly(lost), c1.pm.lastSentSeq, c1.pm.ackBeforeLoss);
      QueueAdmitted(Queued(c1, DataOnly(lost)), now);
    }
  }

  lemma AckWithinWindow(c: Conn, f: AckFrame, now: int, target: int)
    requires Rest(c)
    ensures var c' := HandleAckFrame(c, f, now, target); c'.cc.inflight <= c.cc.inflight || c'.cc.inflight <= c'.cc.cwnd
  {
    hide *;
    HandleAckIs(c, f, now, target);
    if HandleAck(c.pm, f, now).1 != [] {
      var c1 := AckTaken(c, f, now, target);
      RestBooks(c);
      TakenInflight(c, f, now, target);
      DetectWithinWindow(c1, now);
      var c2 := DetectLost(c1, now);
      QueueAdmitted(c2, now);
      ProbeMtuWindow(FlushLost(c2, now), now);
    }
  }

  lemma TakenInflight(c: Conn, f: AckFrame, now: int, target: int)
    requires Keyed(c.pm) && HandleAck(c.pm, f, now).1 != []
    ensures AckTaken(c, f, now, target).cc.inflight <= c.cc.inflight
  {
    BookedSample(c, f, now, target);
    var sample := if NewlyNamed(c, f, f.largestAcked) then Some(c.pm.sent[f.largestAcked].sentTime) else None;
    hide *;
    Congestion.AckGrows(c.cc, DataSize(HandleAck(c.pm, f, now).1), sample, f.ackDelay * MILLISECOND,
                        f.largestAcked, now, target);
  }

  // ----- Writing -----

  /** What one data packet adds to its payload. */
  function Overhead(c: Conn): nat { c.hdr + STREAM_FRAME_HEADER }

  const MOST_OVERHEAD: nat := 70

  lemma SendCosts(c: Conn, stream: nat, f: StreamFrame, paced: bool, now: int)
    ensures var c', size := SendData(c, stream, f, paced, now), |f.data| + Overhead(c);
            && c'.cc.inflight == c.cc.inflight + size && c'.cc.cwnd == c.cc.cwnd && c'.hdr == c.hdr
            && c'.cc.pacer.rate == c.cc.pacer.rate
            && (paced && c.cc.pacer.rate.Some? ==> Budget(c', now) == Budget(c, now) - size as real)
            && (!paced ==> c'.cc.pacer == c.cc.pacer)
  {
    Pacing.SendDraws(c.cc.pacer, PacketSize(c, f), now);
    hide Pacing.OnSent, Pacing.Budget, Congestion.NextPto, Written, SpanOf, Track;
  }

  /** A batch of frames from `lo` to `hi` costs its payload and a header for each. */
  lemma {:induction false} SendAllCosts(c: Conn, stream: nat, fs: seq<StreamFrame>, lo: nat, hi: nat, now: int)
    requires Streams.Chain(fs, lo, hi)
    ensures var c' := SendAll(c, stream, fs, now);
            && c'.cc.inflight == c.cc.inflight + (hi - lo) + |fs| * Overhead(c)
            && c'.cc.cwnd == c.cc.cwnd && c'.hdr == c.hdr && c'.cc.pacer.rate == c.cc.pacer.rate
            && (c.cc.pacer.rate.Some? ==>
                  Budget(c, now) - Budget(c', now) == (c'.cc.inflight - c.cc.inflight) as real)
  {
    hide SendData, Budget;
    if fs != [] {
      var init, f := fs[..|fs| - 1], fs[|fs| - 1];
      assert init != [] ==> fs[|fs| - 2] == init[|init| - 1];
      SendAllCosts(c, stream, init, lo, f.offset, now);
      SendCosts(SendAll(c, stream, init, now), stream, f, true, now);
      assert |fs| * Overhead(c) == |init| * Overhead(c) + Overhead(c);
    }
  }

  /** A close is not held to the window or the pacer: its FIN is booked, and not drawn. */
  lemma CloseCosts(c: Conn, stream: nat, now: int)
    ensures var c' := Finish(c, stream, now);
            && c'.cc.inflight == c.cc.inflight + Overhead(c) && c'.cc.cwnd == c.cc.cwnd && c'.cc.pacer == c.cc.pacer
  {
    SendCosts(c.(log := c.log.(finished := c.log.finished + {stream})), stream,
              StreamFrame(true, false, |Written(c, stream)|, []), false, now);
    hide SendData;
  }

  lemma WriteCosts(c: Conn, stream: nat, data: seq<byte>, chunk: nat, isSyn: bool, now: int)
    requires 0 < chunk && |data| <= 16 * chunk
    ensures var c' := Write(c, stream, data, chunk, isSyn, now);
            && c.cc.inflight + |data| <= c'.cc.inflight <= c.cc.inflight + |data| + 16 * Overhead(c)
            && c'.cc.cwnd == c.cc.cwnd && c'.cc.pacer.rate == c.cc.pacer.rate
            && (c.cc.pacer.rate.Some? ==>
                  Budget(c, now) - Budget(c', now) == (c'.cc.inflight - c.cc.inflight) as real)
  {
    var at := |Written(c, stream)|;
    var fs := Streams.Chunks(at, data, chunk, isSyn, false);
    Streams.ChunksCut(at, data, chunk, isSyn, false);
    Streams.ChunkCount(at, data, chunk, isSyn, false);
    SendAllCosts(c, stream, fs, at, at + |data|, now);
    hide Streams.Chunks, SendAll, Budget, Overhead;
    AtMostSixteen(|fs|, chunk, |data|, Overhead(c));
  }

  lemma AtMostSixteen(n: nat, chunk: nat, len: nat, overhead: nat)
    requires chunk > 0 && len <= 16 * chunk && (n > 0 ==> (n - 1) * chunk < len)
    ensures n <= 16 && 0 <= n * overhead <= 16 * overhead
  {
    Times(16, n - 1, chunk);
    Times(0, n, overhead);
    Times(n, 16, overhead);
  }

  lemma Times(a: int, b: int, c: nat)
    ensures a <= b ==> a * c <= b * c
  {
  }

  /** The write's grant is the window's room at the moment it sends, and it waited for room
      for its first chunk. */
  predicate FreshGrant(n: Credit.Net, a: Credit.Act) {
    a.Writes? ==>
      var cc, avail := n.w.snd.cc, FlowControl.SendWindowAvailable(Credit.SenderOf(n, a.stream));
      && a.credit == Congestion.Available(cc)
      && cc.inflight + Min(Min(a.chunk, |a.data|), avail) <= cc.cwnd
  }

  /** The bytes a write hands over: no more than the window has room for, or one chunk; and
      no less than data, batch, peer's limit and window allow, to the chunk. */
  lemma GrantFits(n: Credit.Net, a: Credit.Act)
    requires a.Writes? && a.chunk > 0 && a.credit == Congestion.Available(n.w.snd.cc)
    ensures var k := Credit.Granted(n, a.stream, a.data, a.chunk, a.credit);
            var room := n.w.snd.cc.cwnd - n.w.snd.cc.inflight;
            && k <= 16 * a.chunk && (k <= room || k <= a.chunk)
            && (k == |a.data| || k + a.chunk > FlowControl.SendWindowAvailable(Credit.SenderOf(n, a.stream))
                || k + a.chunk > 16 * a.chunk || k + a.chunk > room)
            && (FreshGrant(n, a) ==> k <= Max(room, 0))
  {
    hide FlowControl.SendWindowAvailable, Credit.SenderOf;
  }

  /** A write whose grant is fresh keeps its payload within the window; only the headers of
      its packets, sixteen at most, can go past it. Every byte is drawn from the pacer. */
  lemma WriteWithinWindow(n: Credit.Net, a: Credit.Act)
    requires a.Writes? && Credit.CanAct(n, a) && FreshGrant(n, a)
    ensures var c, c' := n.w.snd, Credit.Next(n, a).w.snd;
            && c'.cc.cwnd == c.cc.cwnd
            && (c'.cc.inflight == c.cc.inflight || c'.cc.inflight <= c'.cc.cwnd + 16 * Overhead(c))
            && (c.cc.pacer.rate.Some? ==>
                  Budget(c, a.at) - Budget(c', a.at) == (c'.cc.inflight - c.cc.inflight) as real)
  {
    var k := Credit.Granted(n, a.stream, a.data, a.chunk, a.credit);
    GrantFits(n, a);
    WriteEvent(n, a);
    hide Credit.Granted, Credit.Next, FreshGrant, Write, Budget, Overhead;
    if k > 0 { WriteCosts(n.w.snd, a.stream, a.data[..k], a.chunk, a.isSyn, a.at); }
  }

  lemma WriteEvent(n: Credit.Net, a: Credit.Act)
    requires a.Writes? && Credit.CanAct(n, a)
    ensures var k := Credit.Granted(n, a.stream, a.data, a.chunk, a.credit);
            Credit.Next(n, a).w.snd ==
            if k == 0 then n.w.snd else Write(n.w.snd, a.stream, a.data[..k], a.chunk, a.isSyn, a.at)
  {
    hide Credit.Granted, Write, FlowControl.OnDataSent;
  }

  // ----- The flight over whole runs -----

  predicate Closing(a: Credit.Act) { a.Moves? && a.event.Sender? && a.event.step.Closes? }

  /** Any act of the two peers: the flight rises only to the window, plus sixteen headers in
      a write, or by one header in a close. */
  lemma ActWithinWindow(n: Credit.Net, a: Credit.Act)
    requires Credit.NetOk(n) && Credit.CanAct(n, a) && FreshGrant(n, a)
    ensures var c, c' := n.w.snd, Credit.Next(n, a).w.snd;
            (c'.cc.inflight <= c.cc.inflight || c'.cc.inflight <= c'.cc.cwnd + 16 * Overhead(c)
                || (Closing(a) && c'.cc.inflight == c.cc.inflight + Overhead(c)))
  {
    NetRests(n);
    hide *;
    match a
    case Writes(_, _, _, _, _, _) => WriteWithinWindow(n, a);
    case Moves(e) => MoveWithinWindow(n, e);
    case _ => OthersSame(n, a);
  }

  lemma OthersSame(n: Credit.Net, a: Credit.Act)
    requires Credit.CanAct(n, a) && !a.Writes? && !a.Moves?
    ensures Credit.Next(n, a).w.snd == n.w.snd
  {
    if a.Takes? { Credit.SenderAlone(n.w, a.stream, a.max); }
    hide EndToEnd.ReadStep, Streams.Read, FlowControl.RefreshLimit, FlowControl.ApplyWindowUpdate;
  }

  lemma NetRests(n: Credit.Net)
    requires Credit.NetOk(n)
    ensures Rest(n.w.snd) && Overhead(n.w.snd) <= MOST_OVERHEAD
  {
    hide InCustody, Total;
  }

  lemma MoveWithinWindow(n: Credit.Net, e: EndToEnd.Event)
    requires Credit.CanAct(n, Credit.Moves(e)) && Rest(n.w.snd)
    ensures var c, c' := n.w.snd, Credit.Next(n, Credit.Moves(e)).w.snd;
            || c'.cc.inflight <= c.cc.inflight || c'.cc.inflight <= c'.cc.cwnd
            || (Closing(Credit.Moves(e)) && c'.cc.inflight == c.cc.inflight + Overhead(c))
  {
    var c := n.w.snd;
    hide Rest, Apply, HandleAckFrame, EndToEnd.Delivered, EndToEnd.ReadStep, Overhead;
    match e
    case Sender(step) =>
      if step.Closes? {
        ClosesIs(c, step);
        CloseCosts(c, step.stream, step.at);
      } else {
        StepWithinWindow(c, step);
      }
    case AckArrives(f, now, target) =>
      EndToEnd.AckIsAStep(c, f, now, target);
      StepWithinWindow(c, Acks(f, now, target));
    case _ =>
  }

  lemma ClosesIs(c: Conn, step: Step)
    requires step.Closes?
    ensures Apply(c, step) == Finish(c, step.stream, step.at)
  {
    hide Finish;
  }

  ghost predicate AllFresh(n: Credit.Net, acts: seq<Credit.Act>) {
    forall k :: 0 <= k < |acts| ==> FreshGrant(Credit.Acts(n, acts[..k]), acts[k])
  }

  lemma FreshPrefix(n: Credit.Net, acts: seq<Credit.Act>)
    requires acts != [] && AllFresh(n, acts)
    ensures AllFresh(n, acts[..|acts| - 1])
    ensures FreshGrant(Credit.Acts(n, acts[..|acts| - 1]), acts[|acts| - 1])
  {
    hide FreshGrant, Credit.Acts;
    var init := acts[..|acts| - 1];
    forall k | 0 <= k < |init| ensures FreshGrant(Credit.Acts(n, init[..k]), init[k]) {
      assert init[..k] == acts[..k];
    }
  }

  ghost function Window(n: Credit.Net): nat { n.w.snd.cc.cwnd }

  ghost function Flight(n: Credit.Net): nat { n.w.snd.cc.inflight }

  /** The largest the window has been. */
  ghost function Peak(n: Credit.Net, acts: seq<Credit.Act>): nat {
    if acts == [] then Window(n)
    else
      var before := Peak(n, acts[..|acts| - 1]);
      if Window(Credit.Acts(n, acts)) > before then Window(Credit.Acts(n, acts)) else before
  }

  function CloseCount(acts: seq<Credit.Act>): nat {
    if acts == [] then 0 else CloseCount(acts[..|acts| - 1]) + if Closing(acts[|acts| - 1]) then 1 else 0
  }

  /** In every run of two peers, whatever the network does: the bytes in flight never exceed
      the largest window so far by more than the headers of one batch and of the closes. */
  lemma {:induction false} FlightBounded(hdr: nat, acts: seq<Credit.Act>)
    requires Headers(hdr) && AllFresh(Credit.NewNet(hdr), acts)
    ensures var n0 := Credit.NewNet(hdr);
            Flight(Credit.Acts(n0, acts)) <= Peak(n0, acts) + 16 * MOST_OVERHEAD + MOST_OVERHEAD * CloseCount(acts)
  {
    var n0 := Credit.NewNet(hdr);
    if acts == [] {
      assert Flight(n0) == 0;
    } else {
      hide *;
      var init, a := acts[..|acts| - 1], acts[|acts| - 1];
      FreshPrefix(n0, acts);
      FlightBounded(hdr, init);
      Credit.NewNetOk(hdr);
      Credit.ActsOk(n0, init);
      RunParts(n0, acts);
      if Credit.CanAct(Credit.Acts(n0, init), a) { FlightStep(Credit.Acts(n0, init), a); }
    }
  }

  lemma RunParts(n: Credit.Net, acts: seq<Credit.Act>)
    requires acts != []
    ensures var (n1, a) := (Credit.Acts(n, acts[..|acts| - 1]), acts[|acts| - 1]);
            && Credit.Acts(n, acts) == (if Credit.CanAct(n1, a) then Credit.Next(n1, a) else n1)
            && Peak(n, acts) >= Peak(n, acts[..|acts| - 1]) && Peak(n, acts) >= Window(Credit.Acts(n, acts))
            && CloseCount(acts) == CloseCount(acts[..|acts| - 1]) + if Closing(a) then 1 else 0
  {
    hide Credit.CanAct, Credit.Next, Window, Closing;
  }

  lemma FlightStep(n: Credit.Net, a: Credit.Act)
    requires Credit.NetOk(n) && Credit.CanAct(n, a) && FreshGrant(n, a)
    ensures var n' := Credit.Next(n, a);
            || Flight(n') <= Flight(n) || Flight(n') <= Window(n') + 16 * MOST_OVERHEAD
            || (Closing(a) && Flight(n') <= Flight(n) + MOST_OVERHEAD)
  {
    NetRests(n);
    ActWithinWindow(n, a);
    hide Credit.NetOk, Credit.CanAct, Credit.Next, FreshGrant, Closing, Rest, Overhead;
  }

  // ----- The queue of a connection at rest -----

  /** Draining the lost queue of any reachable connection goes oldest first. */
  lemma OldestFirst(c: Conn, now: int)
    requires Steady(c)
    ensures Dispatched(c, FlushLost(c, now))
  {
    var c0 := c.(lostTimer := None);
    QueueIsData(c);
    FlushLostIs(c, now);
    FlushInOrder(c0, now);
    DispatchedNone(c, c0);
    hide *;
    DispatchedTrans(c, c0, FlushLost(c, now));
  }

  lemma QueueIsData(c: Conn)
    requires Steady(c)
    ensures AllData(c.queue)
  {
  }
}
