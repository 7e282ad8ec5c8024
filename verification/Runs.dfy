/** Whole runs of the sending half of a connection. A run is any sequence of writes,
    closes, ACKs and timers, in any order and at any times; what is proved here holds in
    every state a run can reach. */
module Runs {
  import opened Frames
  import opened Packets
  import opened Sending
  import opened Spans
  import opened Custody
  import opened Recovery
  import Streams

  datatype Step =
    | Writes(stream: nat, data: seq<byte>, chunk: nat, isSyn: bool, at: int)
    | Closes(stream: nat, at: int)
    | Acks(frame: AckFrame, at: int, target: int)
    | LossTimer(at: int)
    | LostTimer(at: int)
    | Pto(at: int)

  /** Nothing is written to a closed stream, and frames leave room for the headers. */
  predicate Possible(c: Conn, step: Step) {
    step.Writes? ==>
      step.stream !in c.log.finished && 0 < step.chunk <= MAX_DATAGRAM_SIZE - STREAM_CHUNK_OVERHEAD
  }

  ghost function Apply(c: Conn, step: Step): Conn
    requires Possible(c, step)
  {
    match step
    case Writes(stream, data, chunk, isSyn, now) => Write(c, stream, data, chunk, isSyn, now)
    case Closes(stream, now) => Finish(c, stream, now)
    case Acks(f, now, target) => HandleAckFrame(c, f, now, target)
    case LossTimer(now) => LossTimerFires(c, now)
    case LostTimer(now) => FlushLost(c, now)
    case Pto(now) => PtoFires(c, now)
  }

  /** Steps that are not possible when their turn comes are skipped. */
  ghost function Run(c: Conn, steps: seq<Step>): Conn {
    if steps == [] then c
    else
      var c1, step := Run(c, steps[..|steps| - 1]), steps[|steps| - 1];
      if Possible(c1, step) then Apply(c1, step) else c1
  }

  /** What holds between steps. */
  ghost predicate Rest(c: Conn) { Steady(c) && QueueServed(c) }

  lemma NewConnRests(hdr: nat)
    requires Headers(hdr)
    ensures Rest(NewConn(hdr)) && NewConn(hdr).log.unbooked == 0
  {
  }

  // ----- One step -----

  lemma FlushRests(c: Conn, now: int)
    requires Steady(c)
    ensures var c' := FlushLost(c, now);
            Rest(c') && Onward(ViewOf(c), ViewOf(c')) && c'.log.unbooked == c.log.unbooked
  {
    var c0 := c.(lostTimer := None);
    assert ViewOf(c0) == ViewOf(c);
    assert Steady(c0) by { hide InCustody, Total; }
    FlushLostIs(c, now);
    assert Rest(Flush(c0, now)) <==> Steady(Flush(c0, now)) && QueueServed(Flush(c0, now));
    hide *;
    FlushSteady(c0, now);
  }

  lemma LossTimerRests(c: Conn, now: int)
    requires Rest(c)
    ensures var c' := LossTimerFires(c, now);
            Rest(c') && Proceeds(ViewOf(c), ViewOf(c')) && c'.log.unbooked == c.log.unbooked
  {
    hide *;
    LossTimerIs(c, now);
    DetectSteady(ForTimer(c), now);
    RestIs(LossTimerFires(c, now));
  }

  /** The state the loss timer looks for losses from. */
  function ForTimer(c: Conn): Conn { c.(pm := c.pm.(ackBeforeLoss := c.pm.lastAckTime)) }

  lemma LossTimerIs(c: Conn, now: int)
    requires Rest(c)
    ensures var c0 := ForTimer(c);
            && LossTimerFires(c, now) == DetectLost(c0, now) && ViewOf(c0) == ViewOf(c)
            && Steady(c0) && QueueServed(c0) && c0.log == c.log && c0.queue == c.queue
            && c0.cc == c.cc && c0.lostTimer == c.lostTimer
  {
    assert ViewOf(ForTimer(c)) == ViewOf(c);
    hide InCustody, Total, DetectLost;
  }

  /** The states an ACK passes through. */
  ghost function AckTaken(c: Conn, f: AckFrame, now: int, target: int): Conn {
    var (pm, acked) := HandleAck(c.pm, f, now);
    AckBooked(c.(pm := pm), f, acked, now, target)
  }

  lemma HandleAckIs(c: Conn, f: AckFrame, now: int, target: int)
    ensures HandleAckFrame(c, f, now, target) ==
            if HandleAck(c.pm, f, now).1 == [] then c
            else ProbeMtu(FlushLost(DetectLost(AckTaken(c, f, now, target), now), now), now)
  {
    hide HandleAck, AckBooked, DetectLost, FlushLost, ProbeMtu;
  }

  lemma BookedManager(c: Conn, f: AckFrame, now: int, target: int)
    ensures AckTaken(c, f, now, target).pm == HandleAck(c.pm, f, now).0
  {
    hide HandleAck;
  }

  /** After an ACK: at rest, and just the records it names are newly acknowledged. */
  lemma AckRests(c: Conn, f: AckFrame, now: int, target: int)
    requires Rest(c)
    ensures var c' := HandleAckFrame(c, f, now, target);
            && Rest(c') && Grows(ViewOf(c), ViewOf(c')) && c'.log.unbooked == c.log.unbooked
            && c'.log.acked == c.log.acked + DataRefs(HandleAck(c.pm, f, now).1)
            && c'.pm.largestAcked == HandleAck(c.pm, f, now).0.largestAcked
  {
    HandleAckIs(c, f, now, target);
    RestIs(c);
    hide Rest, Steady, HandleAckFrame, HandleAck, AckTaken, DetectLost, FlushLost, ProbeMtu, Grows, Proceeds, Onward;
    if HandleAck(c.pm, f, now).1 == [] {
      OnwardRefl(ViewOf(c));
      OnwardIs(ViewOf(c), ViewOf(c));
      NothingTaken(c.pm, f, now);
      assert DataRefs([]) == {};
    } else {
      var c1 := AckTaken(c, f, now, target);
      var c2 := DetectLost(c1, now);
      var c3 := FlushLost(c2, now);
      TakenSteady(c, f, now, target);
      DetectSteady(c1, now);
      FlushRests(c2, now);
      ProbeRests(c3, now);
      ProceedsIs(ViewOf(c1), ViewOf(c2));
      OnwardIs(ViewOf(c2), ViewOf(c3));
      OnwardIs(ViewOf(c3), ViewOf(ProbeMtu(c3, now)));
      GrowsTrans(ViewOf(c), ViewOf(c1), ViewOf(c2));
      GrowsTrans(ViewOf(c), ViewOf(c2), ViewOf(c3));
      GrowsTrans(ViewOf(c), ViewOf(c3), ViewOf(ProbeMtu(c3, now)));
    }
  }

  lemma TakenSteady(c: Conn, f: AckFrame, now: int, target: int)
    requires Steady(c) && HandleAck(c.pm, f, now).1 != []
    ensures var c1 := AckTaken(c, f, now, target);
            && Steady(c1) && Grows(ViewOf(c), ViewOf(c1)) && c1.log.unbooked == c.log.unbooked
            && c1.log.acked == c.log.acked + DataRefs(HandleAck(c.pm, f, now).1)
            && c1.pm == HandleAck(c.pm, f, now).0
  {
    AckSteady(c, f, now, target);
    BookedManager(c, f, now, target);
    hide Steady, HandleAck, AckBooked, Grows;
  }

  lemma ProbeRests(c: Conn, now: int)
    requires Rest(c)
    ensures var c' := ProbeMtu(c, now); Rest(c') && Onward(ViewOf(c), ViewOf(c')) && c'.log == c.log
  {
    ProbeMtuSteady(c, now);
    hide Steady, ProbeMtu, Onward;
  }

  lemma ProceedsIs(v: View, v': View)
    ensures Proceeds(v, v') ==> Grows(v, v') && v'.log.acked == v.log.acked && v'.largestAcked == v.largestAcked
  {
  }

  lemma OnwardIs(v: View, v': View)
    ensures Onward(v, v') ==> Proceeds(v, v') && Grows(v, v') && v'.lossTimer == v.lossTimer
    ensures Onward(v, v') ==> v'.log.acked == v.log.acked && v'.largestAcked == v.largestAcked
  {
  }

  /** Every step leaves the connection at rest and only moves it on; only a probe
      timeout that re-chunks leaves headers unbooked. */
  lemma StepRests(c: Conn, step: Step)
    requires Rest(c) && Possible(c, step)
    ensures var c' := Apply(c, step);
            && Rest(c') && Grows(ViewOf(c), ViewOf(c'))
            && ((step.Pto? ==> NoRechunk(c, step.at)) ==> c'.log.unbooked == c.log.unbooked)
            && (!step.Acks? ==> Proceeds(ViewOf(c), ViewOf(c')))
            && (!step.Acks? && !step.LossTimer? ==> Onward(ViewOf(c), ViewOf(c')))
  {
    OnwardIs(ViewOf(c), ViewOf(Apply(c, step)));
    ProceedsIs(ViewOf(c), ViewOf(Apply(c, step)));
    hide InCustody, Total, Grows, Proceeds, Onward, HandleAckFrame, LossTimerFires, FlushLost, PtoFires;
    hide Finish, Write, NoRechunk;
    match step
    case Writes(stream, data, chunk, isSyn, now) => WriteSteady(c, stream, data, chunk, isSyn, now);
    case Closes(stream, now) => FinishSteady(c, stream, now);
    case Acks(f, now, target) => AckRests(c, f, now, target);
    case LossTimer(now) => LossTimerRests(c, now);
    case LostTimer(now) => FlushRests(c, now);
    case Pto(now) => PtoSteady(c, now);
  }

  // ----- Whole runs -----

  /** No probe timeout of the run meets a packet larger than the path now carries. */
  ghost predicate NeverRechunks(c: Conn, steps: seq<Step>) {
    steps == [] ||
    (var init, step := steps[..|steps| - 1], steps[|steps| - 1];
     NeverRechunks(c, init) && (step.Pto? ==> NoRechunk(Run(c, init), step.at)))
  }

  lemma {:induction false} RunRests(c: Conn, steps: seq<Step>)
    requires Rest(c)
    ensures Rest(Run(c, steps)) && Grows(ViewOf(c), ViewOf(Run(c, steps)))
    ensures NeverRechunks(c, steps) ==> Run(c, steps).log.unbooked == c.log.unbooked
  {
    OnwardRefl(ViewOf(c));
    hide Rest, Grows, Onward, Apply, NoRechunk;
    if steps == [] {
      OnwardIs(ViewOf(c), ViewOf(c));
    } else {
      var init, step := steps[..|steps| - 1], steps[|steps| - 1];
      RunRests(c, init);
      var c1 := Run(c, init);
      if Possible(c1, step) {
        StepRests(c1, step);
        GrowsTrans(ViewOf(c), ViewOf(c1), ViewOf(Apply(c1, step)));
      }
    }
  }

  /** Inflight conservation: never more in flight than is tracked, and exactly that as
      long as no probe timeout re-chunked a packet. */
  lemma InflightConserved(hdr: nat, steps: seq<Step>)
    requires Headers(hdr)
    ensures var c := Run(NewConn(hdr), steps);
            && c.cc.inflight <= Total(c.pm.sent) <= c.cc.inflight + c.log.unbooked
            && (NeverRechunks(NewConn(hdr), steps) ==> c.cc.inflight == Total(c.pm.sent))
  {
    NewConnRests(hdr);
    hide Total, InCustody, Run, NeverRechunks;
    RunRests(NewConn(hdr), steps);
  }

  /** Data waits to be acknowledged, tracked or queued. */
  ghost predicate Outstanding(c: Conn) {
    c.queue != [] || exists s :: s in c.pm.sent && !c.pm.sent[s].probe
  }

  lemma OutstandingWeighs(c: Conn)
    requires Rest(c)
    ensures (exists s :: s in c.pm.sent && !c.pm.sent[s].probe) <==> Total(c.pm.sent) > 0
  {
    if s :| s in c.pm.sent && !c.pm.sent[s].probe {
      TrackedLive(ViewOf(c), s);
      hide InCustody, Total;
      TotalMinus(c.pm.sent, s);
    } else {
      OnlyProbes(c.pm.sent);
    }
  }

  lemma {:induction false} OnlyProbes(sent: map<nat, SentPacket>)
    requires forall s <- sent :: sent[s].probe
    ensures Total(sent) == 0
    decreases |sent|
  {
    if sent != map[] {
      var k :| k in sent;
      TotalMinus(sent, k);
      OnlyProbes(sent - {k});
    }
  }

  /** Recovery never goes quiet: in every state a run reaches without a re-chunking
      probe timeout, outstanding data has a timer set. */
  lemma NeverQuiet(hdr: nat, steps: seq<Step>)
    requires Headers(hdr) && NeverRechunks(NewConn(hdr), steps)
    ensures var c := Run(NewConn(hdr), steps); Outstanding(c) ==> Awake(c)
  {
    var c := Run(NewConn(hdr), steps);
    NewConnRests(hdr);
    RunRests(NewConn(hdr), steps);
    InflightConserved(hdr, steps);
    OutstandingWeighs(c);
    hide Run, Total, InCustody;
  }

  // ----- Where the bytes are -----

  /** The packet carries byte `b` of the stream. */
  predicate Carries(p: SentPacket, stream: nat, b: nat) {
    IsData(p) && p.streamId == stream && FrameOf(p).offset <= b < FrameOf(p).End()
  }

  ghost function TrackedFor(c: Conn, stream: nat, b: nat): set<nat> {
    set s | s in c.pm.sent && Carries(c.pm.sent[s], stream, b)
  }

  ghost function QueuedFor(c: Conn, stream: nat, b: nat): set<nat> {
    set i | 0 <= i < |c.queue| && Carries(c.queue[i], stream, b)
  }

  /** An acknowledged record answered for the byte. */
  ghost predicate Acknowledged(c: Conn, stream: nat, b: nat) {
    exists r :: r in c.log.acked && r in c.log.carriers && Answers(c.log.carriers[r], stream, b)
  }

  predicate Answers(a: Span, stream: nat, b: nat) { a.stream == stream && a.lo <= b < a.hi }

  /** The one record that answers for a byte. */
  lemma OneRecord(v: View, pool: seq<SentPacket>, stream: nat, b: nat) returns (r: nat)
    requires InCustody(v, pool) && b < |WrittenOn(v.log, stream)|
    ensures r in v.log.carriers && Answers(v.log.carriers[r], stream, b)
    ensures forall q <- v.log.carriers :: Answers(v.log.carriers[q], stream, b) ==> q == r
  {
    var cs := v.log.carriers;
    assert Covered(cs, stream, b);
    r :| r in cs && cs[r].stream == stream && cs[r].lo <= b < cs[r].hi;
    forall q | q in cs && Answers(cs[q], stream, b) ensures q == r { assert Separate(cs, q, r); }
  }

  lemma LiveAnswers(v: View, p: SentPacket, stream: nat, b: nat)
    requires Live(v, p)
    ensures p.ref in v.log.carriers && p.ref !in v.log.acked
    ensures Carries(p, stream, b) <==> Answers(v.log.carriers[p.ref], stream, b)
  {
  }

  /** Custody: in every state of every run, a byte handed over is either acknowledged
      and carried by nothing, or carried by exactly one packet, tracked or queued. */
  lemma OnePacketPerByte(hdr: nat, steps: seq<Step>, stream: nat, b: nat)
    requires Headers(hdr) && b < |Written(Run(NewConn(hdr), steps), stream)|
    ensures var c := Run(NewConn(hdr), steps);
            |TrackedFor(c, stream, b)| + |QueuedFor(c, stream, b)| == if Acknowledged(c, stream, b) then 0 else 1
  {
    var c := Run(NewConn(hdr), steps);
    NewConnRests(hdr);
    RunRests(NewConn(hdr), steps);
    hide Run, Grows, NeverRechunks;
    var v := ViewOf(c);
    assert InCustody(v, c.queue) by { hide InCustody, Total; }
    var r := OneRecord(v, c.queue, stream, b);
    assert Acknowledged(c, stream, b) <==> r in c.log.acked;
    ByRecord(c, stream, b, r);
    hide *;
    Counted(c, stream, b, r);
  }

  /** A packet carries the byte exactly when it is for the byte's record. */
  lemma ByRecord(c: Conn, stream: nat, b: nat, r: nat)
    requires InCustody(ViewOf(c), c.queue) && r in c.log.carriers && Answers(c.log.carriers[r], stream, b)
    requires forall q <- c.log.carriers :: Answers(c.log.carriers[q], stream, b) ==> q == r
    ensures forall s <- c.pm.sent :: Carries(c.pm.sent[s], stream, b) <==> !c.pm.sent[s].probe && c.pm.sent[s].ref == r
    ensures forall i :: 0 <= i < |c.queue| ==> (Carries(c.queue[i], stream, b) <==> c.queue[i].ref == r)
    ensures r in c.log.acked + TrackedRefs(c.pm.sent) + DataRefs(c.queue)
    ensures r in c.log.acked ==> r !in TrackedRefs(c.pm.sent) + DataRefs(c.queue)
    ensures forall s, t :: s in c.pm.sent && t in c.pm.sent && c.pm.sent[s].ref == c.pm.sent[t].ref ==> s == t
    ensures forall i, j :: 0 <= i < j < |c.queue| ==> c.queue[i].ref != c.queue[j].ref
    ensures forall i :: 0 <= i < |c.queue| ==> !c.queue[i].probe
    ensures forall s <- c.pm.sent :: c.pm.sent[s].ref !in DataRefs(c.queue)
  {
    var v := ViewOf(c);
    hide FrameOk, WireOk, Complete;
    forall s | s in c.pm.sent
      ensures Carries(c.pm.sent[s], stream, b) <==> !c.pm.sent[s].probe && c.pm.sent[s].ref == r
      ensures !c.pm.sent[s].probe ==> c.pm.sent[s].ref !in c.log.acked
    {
      assert Entry(v, s);
      if !v.sent[s].probe { LiveAnswers(v, v.sent[s], stream, b); }
    }
    forall i | 0 <= i < |c.queue|
      ensures (Carries(c.queue[i], stream, b) <==> c.queue[i].ref == r) && !c.queue[i].probe
              && c.queue[i].ref !in c.log.acked
    {
      LiveAnswers(v, c.queue[i], stream, b);
    }
    forall s, t | s in c.pm.sent && t in c.pm.sent && c.pm.sent[s].ref == c.pm.sent[t].ref ensures s == t {
      assert OneEntry(c.pm.sent, s, t);
    }
  }

  lemma Counted(c: Conn, stream: nat, b: nat, r: nat)
    requires forall s <- c.pm.sent :: Carries(c.pm.sent[s], stream, b) <==> !c.pm.sent[s].probe && c.pm.sent[s].ref == r
    requires forall i :: 0 <= i < |c.queue| ==> (Carries(c.queue[i], stream, b) <==> c.queue[i].ref == r)
    requires r in c.log.acked + TrackedRefs(c.pm.sent) + DataRefs(c.queue)
    requires r in c.log.acked ==> r !in TrackedRefs(c.pm.sent) + DataRefs(c.queue)
    requires forall s, t :: s in c.pm.sent && t in c.pm.sent && c.pm.sent[s].ref == c.pm.sent[t].ref ==> s == t
    requires forall i, j :: 0 <= i < j < |c.queue| ==> c.queue[i].ref != c.queue[j].ref
    requires forall i :: 0 <= i < |c.queue| ==> !c.queue[i].probe
    requires forall s <- c.pm.sent :: c.pm.sent[s].ref !in DataRefs(c.queue)
    ensures |TrackedFor(c, stream, b)| + |QueuedFor(c, stream, b)| == if r in c.log.acked then 0 else 1
  {
    hide Carries;
    var tracked, queued := TrackedFor(c, stream, b), QueuedFor(c, stream, b);
    forall i | 0 <= i < |c.queue| ensures c.queue[i].ref in DataRefs(c.queue) { assert c.queue[i] in c.queue; }
    if r in TrackedRefs(c.pm.sent) {
      var s :| s in c.pm.sent && !c.pm.sent[s].probe && c.pm.sent[s].ref == r;
      assert tracked == {s};
      assert queued == {};
    } else {
      assert tracked == {};
      if r in DataRefs(c.queue) {
        var p :| p in c.queue && p.ref == r;
        var i: nat :| i < |c.queue| && c.queue[i] == p;
        assert queued == {i};
      } else {
        assert queued == {};
      }
    }
  }

  /** A write appends its data to the stream, in order, and touches no other stream. */
  lemma WriteAppends(c: Conn, stream: nat, data: seq<byte>, chunk: nat, isSyn: bool, now: int)
    requires chunk > 0
    ensures var c' := Write(c, stream, data, chunk, isSyn, now);
            && Written(c', stream) == Written(c, stream) + data
            && forall t :: t != stream ==> Written(c', t) == Written(c, t)
  {
    var w := Written(c, stream);
    Streams.ChunksCut(|w|, data, chunk, isSyn, false);
    SendAllAppends(c, stream, Streams.Chunks(|w|, data, chunk, isSyn, false), data, chunk, |w| + |data|, now);
    assert data[..|data|] == data;
  }

  lemma {:induction false} SendAllAppends(c: Conn, stream: nat, fs: seq<StreamFrame>, data: seq<byte>, chunk: nat,
                                          hi: nat, now: int)
    requires var w := Written(c, stream); Streams.Chain(fs, |w|, hi) && hi <= |w| + |data|
    requires forall f <- fs :: Streams.Slice(f, |Written(c, stream)|, data, chunk)
    ensures var c' := SendAll(c, stream, fs, now);
            && hi >= |Written(c, stream)|
            && Written(c', stream) == Written(c, stream) + data[..hi - |Written(c, stream)|]
            && forall t :: t != stream ==> Written(c', t) == Written(c, t)
  {
    hide Written, SendData;
    var w := Written(c, stream);
    if fs == [] {
      assert w + data[..0] == w;
    } else {
      var init, f := fs[..|fs| - 1], fs[|fs| - 1];
      assert f in fs;
      SendAllAppends(c, stream, init, data, chunk, f.offset, now);
      SentWritten(SendAll(c, stream, init, now), stream, f, true, now);
      Joined(w, data, f.offset - |w|, hi - |w|);
    }
  }

  lemma Joined(w: seq<byte>, data: seq<byte>, at: nat, to: nat)
    requires at <= to <= |data|
    ensures w + data[..at] + data[at..to] == w + data[..to]
  {
    assert data[..at] + data[at..to] == data[..to];
  }

  lemma SentWritten(c: Conn, stream: nat, f: StreamFrame, paced: bool, now: int)
    ensures var c' := SendData(c, stream, f, paced, now);
            && Written(c', stream) == Written(c, stream) + f.data
            && forall t :: t != stream ==> Written(c', t) == Written(c, t)
  {
  }

  // ----- Honest acknowledgements -----

  /** The peer acknowledges only what was sent, and the frame's largest among it. */
  ghost predicate HonestAck(c: Conn, f: AckFrame) {
    f.largestAcked in Expand(f) && forall s <- Expand(f) :: s < c.pm.nextSeq
  }

  ghost predicate HonestRun(c: Conn, steps: seq<Step>) {
    steps == [] ||
    (var init, step := steps[..|steps| - 1], steps[|steps| - 1];
     HonestRun(c, init) && (step.Acks? ==> HonestAck(Run(c, init), step.frame)))
  }

  /** The largest acknowledged sequence was sent, and its packet is tracked no more. */
  predicate Informed(v: View) { v.largestAcked < v.nextSeq && (v.largestAcked >= 0 ==> v.largestAcked !in v.sent) }

  lemma GrowsInformed(v: View, v': View)
    requires Informed(v) && Grows(v, v') && v'.largestAcked == v.largestAcked
    ensures Informed(v')
  {
  }

  lemma AckInformed(c: Conn, f: AckFrame, now: int, target: int)
    requires Informed(ViewOf(c)) && HonestAck(c, f)
    ensures var c1 := AckTaken(c, f, now, target); Informed(ViewOf(c1)) && c1.pm.largestAcked >= c.pm.largestAcked
  {
    BookedManager(c, f, now, target);
    TakeAllIsExact(c.pm.sent, Expand(f));
    hide Expand;
  }

  lemma StepInformed(c: Conn, step: Step)
    requires Rest(c) && Informed(ViewOf(c)) && Possible(c, step) && (step.Acks? ==> HonestAck(c, step.frame))
    ensures Informed(ViewOf(Apply(c, step))) && Apply(c, step).pm.largestAcked >= c.pm.largestAcked
  {
    StepRests(c, step);
    ProceedsIs(ViewOf(c), ViewOf(Apply(c, step)));
    if step.Acks? {
      AckInformed(c, step.frame, step.at, step.target);
      hide Informed, HonestAck;
      AckPasses(c, step.frame, step.at, step.target);
    } else {
      hide *;
      GrowsInformed(ViewOf(c), ViewOf(Apply(c, step)));
    }
  }

  /** What an ACK sets off only moves on from the state that took it. */
  lemma AckPasses(c: Conn, f: AckFrame, now: int, target: int)
    requires Rest(c) && Informed(ViewOf(c)) && Informed(ViewOf(AckTaken(c, f, now, target)))
    ensures var c' := HandleAckFrame(c, f, now, target);
            Informed(ViewOf(c')) && (c' == c || c'.pm.largestAcked == AckTaken(c, f, now, target).pm.largestAcked)
  {
    HandleAckIs(c, f, now, target);
    RestIs(c);
    hide HandleAck, HandleAckFrame, AckTaken, Rest, Steady, Informed, DetectLost, FlushLost, ProbeMtu;
    hide Grows, Proceeds, Onward;
    if HandleAck(c.pm, f, now).1 != [] {
      var c1 := AckTaken(c, f, now, target);
      var c2 := DetectLost(c1, now);
      var c3 := FlushLost(c2, now);
      TakenSteady(c, f, now, target);
      DetectSteady(c1, now);
      FlushRests(c2, now);
      RestIs(c3);
      ProbeMtuSteady(c3, now);
      ProceedsIs(ViewOf(c1), ViewOf(c2));
      OnwardIs(ViewOf(c2), ViewOf(c3));
      OnwardIs(ViewOf(c3), ViewOf(ProbeMtu(c3, now)));
      GrowsInformed(ViewOf(c1), ViewOf(c2));
      GrowsInformed(ViewOf(c2), ViewOf(c3));
      GrowsInformed(ViewOf(c3), ViewOf(ProbeMtu(c3, now)));
    }
  }

  lemma RestIs(c: Conn)
    ensures Rest(c) <==> Steady(c) && QueueServed(c)
    ensures Rest(c) ==> Keyed(c.pm) && KeyedIn(c.pm.sent, c.pm.nextSeq)
  {
  }

  lemma {:induction false} RunInformed(c: Conn, steps: seq<Step>)
    requires Rest(c) && Informed(ViewOf(c)) && HonestRun(c, steps)
    ensures Informed(ViewOf(Run(c, steps))) && Run(c, steps).pm.largestAcked >= c.pm.largestAcked
  {
    hide Rest, Informed, Apply, HonestAck;
    if steps != [] {
      var init, step := steps[..|steps| - 1], steps[|steps| - 1];
      RunInformed(c, init);
      RunRests(c, init);
      if Possible(Run(c, init), step) { StepInformed(Run(c, init), step); }
    }
  }

  // ----- The loss timer -----

  /** Whatever is tracked at or below the largest acknowledged has the loss timer. */
  ghost predicate Watched(v: View) { forall s <- v.sent :: s <= v.largestAcked ==> v.lossTimer.Some? }

  lemma OnwardWatched(v: View, v': View)
    requires Informed(v) && Watched(v) && Onward(v, v')
    ensures Informed(v') && Watched(v')
  {
  }

  lemma DetectWatched(c: Conn, now: int)
    requires Steady(c) && Informed(ViewOf(c))
    ensures Informed(ViewOf(DetectLost(c, now))) && Watched(ViewOf(DetectLost(c, now)))
  {
    var delay := LossDelay(c.cc.smoothedRtt, c.cc.latestRtt);
    var pm := Detect(c.pm, now, delay).0;
    DetectLeavesOnlyYoung(c.pm, now, delay);
    assert pm.nextSeq == c.pm.nextSeq && pm.largestAcked == c.pm.largestAcked;
    hide Steady, Detect, DetectLost, Onward;
    DetectSteady(c, now);
    OnwardWatched(ViewOf(c.(pm := pm)), ViewOf(DetectLost(c, now)));
  }

  lemma AckWatched(c: Conn, f: AckFrame, now: int, target: int)
    requires Rest(c) && Informed(ViewOf(c)) && Watched(ViewOf(c)) && HonestAck(c, f)
    ensures Watched(ViewOf(HandleAckFrame(c, f, now, target)))
  {
    hide *;
    HandleAckIs(c, f, now, target);
    RestIs(c);
    AckInformed(c, f, now, target);
    if HandleAck(c.pm, f, now).1 != [] {
      var c1 := AckTaken(c, f, now, target);
      var c2 := DetectLost(c1, now);
      var c3 := FlushLost(c2, now);
      TakenSteady(c, f, now, target);
      DetectSteady(c1, now);
      DetectWatched(c1, now);
      FlushRests(c2, now);
      OnwardWatched(ViewOf(c2), ViewOf(c3));
      ProbeRests(c3, now);
      OnwardWatched(ViewOf(c3), ViewOf(ProbeMtu(c3, now)));
    }
  }

  lemma StepWatched(c: Conn, step: Step)
    requires Rest(c) && Informed(ViewOf(c)) && Watched(ViewOf(c)) && Possible(c, step)
    requires step.Acks? ==> HonestAck(c, step.frame)
    ensures Watched(ViewOf(Apply(c, step)))
  {
    ApplyIs(c, step);
    hide *;
    if step.Acks? {
      AckWatched(c, step.frame, step.at, step.target);
    } else if step.LossTimer? {
      LossTimerIs(c, step.at);
      DetectWatched(ForTimer(c), step.at);
    } else {
      StepRests(c, step);
      OnwardWatched(ViewOf(c), ViewOf(Apply(c, step)));
    }
  }

  lemma ApplyIs(c: Conn, step: Step)
    requires Possible(c, step)
    ensures step.Acks? ==> Apply(c, step) == HandleAckFrame(c, step.frame, step.at, step.target)
    ensures step.LossTimer? ==> Apply(c, step) == LossTimerFires(c, step.at)
    ensures step.LostTimer? ==> Apply(c, step) == FlushLost(c, step.at)
    ensures step.Pto? ==> Apply(c, step) == PtoFires(c, step.at)
  {
    hide HandleAckFrame, LossTimerFires, PtoFires, FlushLost, Write, Finish;
  }

  lemma {:induction false} RunWatched(c: Conn, steps: seq<Step>)
    requires Rest(c) && Informed(ViewOf(c)) && Watched(ViewOf(c)) && HonestRun(c, steps)
    ensures Watched(ViewOf(Run(c, steps)))
  {
    hide Rest, Informed, Watched, Apply, HonestAck;
    if steps != [] {
      var init, step := steps[..|steps| - 1], steps[|steps| - 1];
      RunWatched(c, init);
      RunInformed(c, init);
      RunRests(c, init);
      if Possible(Run(c, init), step) { StepWatched(Run(c, init), step); }
    }
  }

  /** In every state of every run with honest ACKs, a packet tracked at or below the
      largest acknowledged has the loss timer armed: it is declared lost or acknowledged,
      but never forgotten. */
  lemma LossTimerWaits(hdr: nat, steps: seq<Step>)
    requires Headers(hdr) && HonestRun(NewConn(hdr), steps)
    ensures var m := Run(NewConn(hdr), steps).pm;
            forall s <- m.sent :: s <= m.largestAcked ==> m.lossTimer.Some?
  {
    NewConnRests(hdr);
    RunWatched(NewConn(hdr), steps);
    hide Run, HonestRun;
  }

  /** The last sequence sent is the one before the next, in every state of every run. */
  lemma LastSentIsLast(hdr: nat, steps: seq<Step>)
    requires Headers(hdr)
    ensures var m := Run(NewConn(hdr), steps).pm; m.lastSentSeq == m.nextSeq - 1
  {
    NewConnRests(hdr);
    RunRests(NewConn(hdr), steps);
    hide Run, Rest;
  }

  // ----- Sequence numbers -----

  /** Over every run with honest ACKs: each tracked packet sits under its own current
      sequence, below the next one, no record twice; and a packet sent after any point
      of the run is declared lost only once a larger sequence than its own has been
      acknowledged since that point. */
  lemma LostOnlyOncePassed(hdr: nat, before: seq<Step>, after: seq<Step>, now: int, delay: int)
    requires Headers(hdr) && HonestRun(NewConn(hdr), before) && HonestRun(Run(NewConn(hdr), before), after)
    ensures var c := Run(NewConn(hdr), before);
            var c' := Run(c, after);
            && Keyed(c'.pm) && c.pm.largestAcked < c.pm.nextSeq
            && forall p <- Detect(c'.pm, now, delay).1 :: p.sequence >= c.pm.nextSeq ==>
                 c.pm.largestAcked < p.sequence < c'.pm.largestAcked
  {
    var c0, c := NewConn(hdr), Run(NewConn(hdr), before);
    var c' := Run(c, after);
    NewConnRests(hdr);
    RunRests(c0, before);
    RunInformed(c0, before);
    RunRests(c, after);
    RunInformed(c, after);
    hide Run, HonestRun;
    assert Keyed(c'.pm) by { hide Detect; }
    assert Informed(ViewOf(c')) && Informed(ViewOf(c));
    hide Rest;
    LostBehind(c'.pm, now, delay);
  }

  lemma LostBehind(m: Manager, now: int, delay: int)
    requires Keyed(m) && (m.largestAcked >= 0 ==> m.largestAcked !in m.sent)
    ensures forall p <- Detect(m, now, delay).1 :: p.sequence < m.largestAcked
  {
    if m.largestAcked >= 0 {
      InOrderMembers(m.sent, LostKeys(m, now, delay));
    }
  }

  /** A sequence number stands for one datagram for ever: whatever the run goes on to
      do, what went out under it and for which record does not change. */
  lemma SequenceNeverReused(hdr: nat, before: seq<Step>, after: seq<Step>, s: nat)
    requires Headers(hdr) && s in Run(NewConn(hdr), before).wire
    ensures var c := Run(NewConn(hdr), before);
            var c' := Run(c, after);
            && s in c'.wire && c'.wire[s] == c.wire[s]
            && (s in c'.pm.sent ==> !c'.pm.sent[s].probe && c'.pm.sent[s].ref == c.wire[s].ref)
  {
    var c := Run(NewConn(hdr), before);
    var c' := Run(c, after);
    NewConnRests(hdr);
    RunRests(NewConn(hdr), before);
    RunRests(c, after);
    hide Run;
    assert Grows(ViewOf(c), ViewOf(c'));
    assert TrackedOk(ViewOf(c')) && WireOk(ViewOf(c')) by { hide Grows; }
    if s in c'.pm.sent { TrackedUnder(c', s); }
  }

  lemma TrackedUnder(c: Conn, s: nat)
    requires Rest(c) && s in c.pm.sent && s in c.wire
    ensures !c.pm.sent[s].probe && c.pm.sent[s].ref == c.wire[s].ref
  {
    assert Entry(ViewOf(c), s);
  }
}
