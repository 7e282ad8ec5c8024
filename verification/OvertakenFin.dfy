/** A stream whose reader is not told of its end. Its data and its FIN are sent; the FIN
    arrives first, finds no stream, and is acknowledged; then the data arrives and is
    acknowledged. Nothing is outstanding, so the sender has nothing to send again, and
    the receiver has not recorded the end. */
module OvertakenFin {
  import opened Frames
  import opened Packets
  import opened Sending
  import opened Custody
  import opened Recovery
  import opened EndToEnd
  import opened Stalling
  import opened Scenes
  import AckTracker
  import Congestion
  import Pacing
  import QuietRun
  import Receiving
  import Runs
  import Streams
  import StreamEnd

  const CHUNK: nat := SAFE_DATAGRAM_SIZE - STREAM_CHUNK_OVERHEAD
  const RTT: int := 100 * MILLISECOND

  /** How long after the FIN the data arrives, in milliseconds, and its ACK after the FIN's. */
  const LATE: nat := 10
  const BOTH: int := RTT + LATE * MILLISECOND

  function FinAck(): AckFrame { AckFrame(1, 0, 1, []) }

  /** The largest, which is the FIN, has waited since it arrived. */
  function BothAck(): AckFrame { AckFrame(1, LATE, 2, []) }

  function Closing(data: seq<byte>): seq<Event> {
    [Sender(Runs.Writes(STREAM, data, CHUNK, true, 0)), Sender(Runs.Closes(STREAM, 0))]
  }

  /** The FIN overtakes the data. */
  function Events(data: seq<byte>): seq<Event> {
    Closing(data) + [DataArrives(1)] + [AckSent(FinAck()), AckArrives(FinAck(), RTT, 0)]
      + [DataArrives(0)] + [AckSent(BothAck()), AckArrives(BothAck(), BOTH, 0)]
  }

  // ----- The sender -----

  ghost function Opening(data: seq<byte>): Conn
    requires 0 < |data| <= CHUNK
  {
    Write(NewConn(MIN_HEADER), STREAM, data, CHUNK, true, 0)
  }

  ghost function Closed(data: seq<byte>): Conn
    requires 0 < |data| <= CHUNK
  {
    Finish(Opening(data), STREAM, 0)
  }

  function First(data: seq<byte>): SentPacket {
    SentPacket(0, 0, 0, MIN_HEADER + STREAM_FRAME_HEADER + |data|, false,
               [Stream(StreamFrame(false, true, 0, data))], STREAM, false)
  }

  function Last(data: seq<byte>): SentPacket {
    SentPacket(1, 1, 0, MIN_HEADER + STREAM_FRAME_HEADER, false,
               [Stream(StreamFrame(true, false, |data|, []))], STREAM, false)
  }

  /** What the sender has put on the wire. */
  function Sent(data: seq<byte>): map<nat, Datagram> {
    map[0 := Datagram(0, STREAM, StreamFrame(false, true, 0, data)),
        1 := Datagram(1, STREAM, StreamFrame(true, false, |data|, []))]
  }

  /** Nothing was acknowledged, and of the timers only the probe timer is set, for more than
      a second after the last packet went out, which was at 0. */
  predicate Waiting(c: Conn) {
    && c.pm.largestAcked == -1 && c.queue == [] && c.cc.firstRttSample && c.cc.ptoCount == 0
    && c.cc.lastSendTime == Some(0) && c.cc.smoothedRtt == Congestion.INITIAL_RTT
    && c.cc.rttVar == Congestion.INITIAL_RTT / 2
    && NotBefore(c.cc.ptoTimer, SECOND) && c.pm.lossTimer.None? && c.lostTimer.None?
  }

  lemma SentWaiting(cc: Congestion.Controller, bytes: nat)
    requires cc.ptoCount == 0 && cc.smoothedRtt == Congestion.INITIAL_RTT && cc.rttVar == Congestion.INITIAL_RTT / 2
    ensures var cc' := Congestion.OnPacketSent(cc, bytes, 0);
            cc' == cc.(inflight := cc'.inflight, ptoTimer := cc'.ptoTimer, lastSendTime := Some(0))
            && NotBefore(cc'.ptoTimer, SECOND)
  {
  }

  lemma WrittenIs(data: seq<byte>)
    requires 0 < |data| <= CHUNK
    ensures var c := Opening(data);
            && Waiting(c) && c.pm.sent == map[0 := First(data)] && c.pm.nextSeq == 1 && c.nextRef == 1
            && c.hdr == MIN_HEADER && c.wire == map[0 := Sent(data)[0]] && Written(c, STREAM) == data
  {
    var c0 := NewConn(MIN_HEADER);
    var f := StreamFrame(false, true, 0, data);
    QuietRun.OneChunk(0, data, CHUNK, true);
    QuietRun.SendOne(c0, f, 0);
    assert Write(c0, STREAM, data, CHUNK, true, 0) == SendData(c0, STREAM, f, true, 0)
    by { hide SendAll, SendData, Streams.Chunks; }
    assert [] + data == data;
    SentWaiting(c0.cc, PacketSize(c0, f));
    hide Write, Congestion.OnPacketSent, Pacing.OnSent;
  }

  lemma FinishedIs(c: Conn, data: seq<byte>)
    requires Waiting(c) && c.pm.sent == map[0 := First(data)] && c.pm.nextSeq == 1 && c.nextRef == 1
    requires c.hdr == MIN_HEADER && c.wire == map[0 := Sent(data)[0]] && Written(c, STREAM) == data
    ensures var c' := Finish(c, STREAM, 0);
            && Waiting(c') && c'.pm.sent == map[0 := First(data), 1 := Last(data)]
            && c'.wire == Sent(data) && Written(c', STREAM) == data && STREAM in c'.log.finished
  {
    assert data + [] == data;
    SentWaiting(c.cc, c.hdr + STREAM_FRAME_HEADER);
    hide Congestion.OnPacketSent;
  }

  lemma ClosedIs(data: seq<byte>)
    requires 0 < |data| <= CHUNK
    ensures var c := Closed(data);
            && Waiting(c) && c.pm.sent == map[0 := First(data), 1 := Last(data)] && c.wire == Sent(data)
            && Written(c, STREAM) == data && STREAM in c.log.finished
  {
    hide Opening, Finish, First, Last, Sent, Written, Waiting;
    WrittenIs(data);
    FinishedIs(Opening(data), data);
  }

  lemma ClosedRests(data: seq<byte>)
    requires 0 < |data| <= CHUNK
    ensures Runs.Rest(Closed(data))
  {
    var c0 := NewConn(MIN_HEADER);
    Runs.NewConnRests(MIN_HEADER);
    assert c0.log.finished == {};
    hide NewConn, Runs.Rest, Write, Finish;
    Runs.StepRests(c0, Runs.Writes(STREAM, data, CHUNK, true, 0));
    Runs.StepRests(Opening(data), Runs.Closes(STREAM, 0));
  }

  lemma Expanded()
    ensures Expand(FinAck()) == [1] && Expand(BothAck()) == [1, 0]
  {
    assert RangeDown(1, 1) == [1] + RangeDown(0, 0);
    assert RangeDown(1, 2) == [1] + RangeDown(0, 1) == [1, 0];
  }

  /** The round trip just measured is too short for anything sent with it to be lost. */
  lemma FirstSample(cc: Congestion.Controller, bytes: nat, sentTime: int, largest: int, now: int)
    requires cc.firstRttSample && sentTime <= now && cc.lastSendTime == Some(sentTime)
    ensures var cc' := Congestion.OnPacketAcked(cc, bytes, Some(sentTime), 0, largest, now, 0);
            cc'.latestRtt == now - sentTime && NotBefore(cc'.ptoTimer, now + MAX_ACK_DELAY)
  {
    hide Congestion.CubicWindow, Pacing.UpdateRate;
  }

  ghost function FinAcked(data: seq<byte>): Conn
    requires 0 < |data| <= CHUNK
  {
    HandleAckFrame(Closed(data), FinAck(), RTT, 0)
  }

  lemma TakesFin(m: Manager, data: seq<byte>, now: int)
    requires m.sent == map[0 := First(data), 1 := Last(data)] && m.largestAcked == -1
    ensures var (m', acked) := HandleAck(m, FinAck(), now);
            acked == [Last(data).(isAcked := true)] && m'.sent == map[0 := First(data)] && m'.largestAcked == 1
  {
    Expanded();
    var q := Last(data).(isAcked := true);
    hide Expand, First;
    assert [1][..0] == [];
    assert TakeAll(m.sent, []) == (m.sent, []);
    assert m.sent - {1} == map[0 := First(data)] && [] + [q] == [q];
    assert TakeAll(m.sent, [1]) == (map[0 := First(data)], [q]);
  }

  lemma FinTaken(c: Conn, data: seq<byte>)
    requires Waiting(c) && c.pm.sent == map[0 := First(data), 1 := Last(data)]
    ensures var c1 := Runs.AckTaken(c, FinAck(), RTT, 0);
            && HandleAck(c.pm, FinAck(), RTT).1 != [] && c1.queue == [] && c1.pm.largestAcked == 1
            && c1.pm.sent == map[0 := First(data)] && c1.cc.latestRtt == RTT
            && NotBefore(c1.cc.ptoTimer, BOTH)
  {
    TakesFin(c.pm, data, RTT);
    var q := Last(data).(isAcked := true);
    assert [q][..0] == [];
    assert LargestSample([q], 1) == Some(0);
    FirstSample(c.cc, DataSize([q]), 0, 1, RTT);
    hide HandleAck, Congestion.OnPacketAcked, MtuAfterAck, First, Last;
  }

  /** After the first ACK only the data is outstanding, under its old sequence. */
  lemma FinAckedIs(data: seq<byte>)
    requires 0 < |data| <= CHUNK
    ensures var c := FinAcked(data);
            && c.queue == [] && Runs.Rest(c) && 0 in c.pm.sent && Grows(ViewOf(Closed(data)), ViewOf(c))
            && (forall s <- c.pm.sent :: !c.pm.sent[s].probe ==> s == 0) && OnTime(c, BOTH)
  {
    hide *;
    var c := Closed(data);
    Shapes(data);
    ClosedIs(data);
    ClosedRests(data);
    FinTaken(c, data);
    Runs.HandleAckIs(c, FinAck(), RTT, 0);
    Runs.AckRests(c, FinAck(), RTT, 0);
    NoneLost(Runs.AckTaken(c, FinAck(), RTT, 0), RTT);
    Punctual(FinAcked(data), BOTH);
  }

  lemma Punctual(c: Conn, at: int)
    ensures OnTime(c, at) <==>
            NotBefore(c.cc.ptoTimer, at) && NotBefore(c.pm.lossTimer, at) && NotBefore(c.lostTimer, at)
    ensures c.lostTimer.None? ==> NotBefore(c.lostTimer, at)
  {
  }

  lemma Shapes(data: seq<byte>)
    requires 0 < |data| <= CHUNK
    ensures FinAcked(data) == HandleAckFrame(Closed(data), FinAck(), RTT, 0) && First(data).sentTime == 0
    ensures BothAcked(data) == HandleAckFrame(FinAcked(data), BothAck(), BOTH, 0)
    ensures Overtaken(data) == World(Closed(data), {1}, map[], map[], {}) && RTT > 0
  {
    hide HandleAckFrame, Closed, NewConn;
  }

  /** What was sent, written and closed stays so. */
  lemma StillClosed(data: seq<byte>, c: Conn)
    requires 0 < |data| <= CHUNK && Grows(ViewOf(Closed(data)), ViewOf(c))
    ensures 0 in c.wire && c.wire[0] == Sent(data)[0] && STREAM in c.log.finished && Written(c, STREAM) == data
  {
    ClosedIs(data);
    hide Closed;
  }

  /** Young, close behind, nothing queued: detection and the queue do nothing. */
  lemma NoneLost(c: Conn, now: int)
    requires c.queue == [] && c.pm.largestAcked == 1 && c.pm.sent.Keys == {0} && c.pm.sent[0].sentTime == 0
    requires c.cc.latestRtt == now == RTT
    ensures var c' := ProbeMtu(FlushLost(DetectLost(c, now), now), now);
            && c'.queue == [] && 0 in c'.pm.sent
            && (forall s <- c'.pm.sent :: s in c.pm.sent || c'.pm.sent[s].probe)
            && c'.cc == c.cc && c'.lostTimer.None? && NotBefore(c'.pm.lossTimer, BOTH)
  {
    TimerAfter(c.pm, now, LossDelay(c.cc.smoothedRtt, c.cc.latestRtt));
    var delay := LossDelay(c.cc.smoothedRtt, c.cc.latestRtt);
    hide LossDelay;
    assert LostKeys(c.pm, now, delay) == {};
    assert c.pm.sent - {} == c.pm.sent;
    assert Detect(c.pm, now, delay) == (c.pm.(lossTimer := LossTimerFor(c.pm, now, delay)), []);
    hide Detect, LossTimerFor, PathMtu.NextProbe;
  }

  /** The loss timer waits for the data to grow as old as the delay. */
  lemma TimerAfter(m: Manager, now: int, delay: int)
    requires m.sent.Keys == {0} && m.sent[0].sentTime == 0
    ensures NotBefore(LossTimerFor(m, now, delay), delay)
  {
    var waiting := WaitingKeys(m, now, delay);
    if waiting != {} {
      assert waiting == {0};
      forall at | IsNextLoss(m, waiting, delay, at) ensures at == delay { }
    }
  }

  // ----- Nothing outstanding -----

  /** An ACK for all the data tracked, with nothing queued, leaves nothing outstanding. */
  lemma AllAcked(c: Conn, f: AckFrame, now: int, target: int)
    requires Runs.Rest(c) && c.queue == [] && Names(c, f)
    requires forall s <- c.pm.sent :: !c.pm.sent[s].probe ==> s in Expand(f)
    ensures !Runs.Outstanding(HandleAckFrame(c, f, now, target))
  {
    assert !LeavesBehind(c, f) && forall s <- Left(c, f) :: Left(c, f)[s].probe by { hide Expand; }
    hide *;
    Runs.OnlyProbes(Left(c, f));
    TakenFrom(c, f, now, target);
    TakenIs(c, f, now);
    Runs.HandleAckIs(c, f, now, target);
    Runs.AckRests(c, f, now, target);
    var c1 := Runs.AckTaken(c, f, now, target);
    var c2 := DetectLost(c1, now);
    AfterDetection(c1, now);
    FlushedOnce(c2, now);
    ProbeMtuSteady(FlushLost(c2, now), now);
    NotOutstanding(HandleAckFrame(c, f, now, target));
  }

  lemma NotOutstanding(c: Conn)
    requires Runs.Rest(c)
    ensures c.queue == [] && Total(c.pm.sent) == 0 ==> !Runs.Outstanding(c)
  {
    Runs.OutstandingWeighs(c);
    hide Runs.Rest, Total;
  }

  ghost function BothAcked(data: seq<byte>): Conn
    requires 0 < |data| <= CHUNK
  {
    HandleAckFrame(FinAcked(data), BothAck(), BOTH, 0)
  }

  lemma BothAckedIs(data: seq<byte>)
    requires 0 < |data| <= CHUNK
    ensures !Runs.Outstanding(BothAcked(data))
  {
    var c := FinAcked(data);
    FinAckedIs(data);
    Expanded();
    assert 0 in c.pm.sent && 0 in Expand(BothAck()) && BothAcked(data) == HandleAckFrame(c, BothAck(), BOTH, 0)
    by { hide FinAcked, Expand, HandleAckFrame; }
    assert Names(c, BothAck()) by { hide FinAcked, Expand; }
    hide FinAcked, BothAcked, Runs.Rest, Names, Runs.Outstanding, HandleAckFrame, Expand;
    AllAcked(c, BothAck(), BOTH, 0);
  }

  // ----- The two peers -----

  lemma FinPrinted()
    ensures Printed(FinAck(), {1})
  {
    hide *;
    Expanded();
    Reaches();
    PrintedAll(FinAck(), {1});
  }

  lemma Reaches()
    ensures FinAck().ranges == BothAck().ranges == [] && FinAck().largestAcked == BothAck().largestAcked == 1
    ensures AckTracker.Lowest(FinAck()) == 1 && AckTracker.Lowest(BothAck()) == 0
  {
  }

  /** A frame for everything that has arrived, with nothing left out below. */
  lemma PrintedAll(f: AckFrame, arrived: set<nat>)
    requires f.ranges == [] && 0 <= AckTracker.Lowest(f) <= f.largestAcked && f.largestAcked in Expand(f)
    requires (forall s <- arrived :: s in Expand(f)) && forall s <- Expand(f) :: s in arrived
    requires forall s <- arrived :: AckTracker.Lowest(f) <= s <= f.largestAcked
    ensures Printed(f, arrived)
  {
    hide Expand, AckTracker.Lowest;
  }

  lemma BothPrinted()
    ensures Printed(BothAck(), {1, 0})
  {
    hide *;
    Expanded();
    Reaches();
    PrintedAll(BothAck(), {1, 0});
  }

  /** What the receiver makes of the data. */
  function Opened(data: seq<byte>): Streams.Inbound {
    Streams.DeliverFrame(Streams.NewInbound(Streams.Open), StreamFrame(false, true, 0, data))
  }

  lemma Opens(data: seq<byte>)
    requires 0 < |data| <= CHUNK
    ensures var s := Opened(data);
            s.offset == |data| && s.buf == data && !s.finSeen && !s.finReceived && !s.violation
  {
    var t := Streams.Append(Streams.NewInbound(Streams.Open), 0, data);
    assert Streams.Release(t) == t;
    assert [] + data[0..] == data;
  }

  ghost function Overtaken(data: seq<byte>): World
    requires 0 < |data| <= CHUNK
  {
    World(Closed(data), {1}, map[], map[], {})
  }

  lemma SenderCloses(data: seq<byte>)
    requires 0 < |data| <= CHUNK
    ensures Run(Start(MIN_HEADER), Closing(data)) == Start(MIN_HEADER).(snd := Closed(data))
  {
    var w, c0 := Start(MIN_HEADER), NewConn(MIN_HEADER);
    assert c0.log.finished == {} && w.snd == c0;
    hide NewConn, Write, Finish, Run;
    TwoEvents(w, Sender(Runs.Writes(STREAM, data, CHUNK, true, 0)), Sender(Runs.Closes(STREAM, 0)));
  }

  /** A bare FIN for a stream that does not exist only counts as arrived. */
  lemma FinFindsNothing(w: World, x: nat)
    requires x in w.snd.wire && w.snd.wire[x].stream !in w.streams
    requires !w.snd.wire[x].frame.isSyn && w.snd.wire[x].frame.data == []
    ensures Run(w, [DataArrives(x)]) == w.(arrived := w.arrived + {x})
  {
    OneEvent(w, DataArrives(x));
    hide Run, Streams.DeliverFrame;
  }

  lemma FirstHalf(data: seq<byte>)
    requires 0 < |data| <= CHUNK
    ensures Run(Start(MIN_HEADER), Closing(data) + [DataArrives(1)]) == Overtaken(data)
  {
    SenderCloses(data);
    ClosedIs(data);
    hide Closed, Run, NewConn, First, Last;
    var w := Start(MIN_HEADER);
    RunMore(w, Closing(data), [DataArrives(1)]);
    FinFindsNothing(w.(snd := Closed(data)), 1);
    assert {} + {1} == {1};
  }

  lemma DataOpens(w: World, data: seq<byte>)
    requires 0 in w.snd.wire && w.snd.wire[0] == Sent(data)[0] && w.streams == map[]
    ensures var w' := Run(w, [DataArrives(0)]);
            && w'.snd == w.snd && w'.arrived == w.arrived + {0} && w'.read == w.read
            && w'.streams == map[STREAM := Opened(data)]
  {
    OneEvent(w, DataArrives(0));
    hide Run, Streams.DeliverFrame;
  }

  lemma SecondHalf(data: seq<byte>)
    requires 0 < |data| <= CHUNK
    ensures var w := Run(Overtaken(data), Middle());
            && w.snd == FinAcked(data) && w.arrived == {1, 0} && w.read == map[]
            && w.streams == map[STREAM := Opened(data)]
  {
    hide *;
    var w, acks := Overtaken(data), [AckSent(FinAck()), AckArrives(FinAck(), RTT, 0)];
    MiddleIs();
    FinRound(data);
    FinAckedIs(data);
    StillClosed(data, FinAcked(data));
    RunMore(w, acks, [DataArrives(0)]);
    DataOpens(Run(w, acks), data);
    assert {1} + {0} == {1, 0};
  }

  lemma FinRound(data: seq<byte>)
    requires 0 < |data| <= CHUNK
    ensures var w := Run(Overtaken(data), [AckSent(FinAck()), AckArrives(FinAck(), RTT, 0)]);
            w.snd == FinAcked(data) && w.arrived == {1} && w.streams == map[] && w.read == map[]
  {
    hide *;
    Shapes(data);
    FinPrinted();
    AckRound(Overtaken(data), FinAck(), RTT, 0);
  }

  lemma Parts(data: seq<byte>)
    requires 0 < |data| <= CHUNK
    ensures Run(Start(MIN_HEADER), Events(data)) ==
            Run(Run(Overtaken(data), Middle()), [AckSent(BothAck()), AckArrives(BothAck(), BOTH, 0)])
  {
    hide *;
    FirstHalf(data);
    EventsAre(data);
    var w, head := Start(MIN_HEADER), Closing(data) + [DataArrives(1)];
    var mid, tail := Middle(), [AckSent(BothAck()), AckArrives(BothAck(), BOTH, 0)];
    RunMore(w, head + mid, tail);
    RunMore(w, head, mid);
  }

  // ----- In time -----

  lemma ClosingTimely(data: seq<byte>)
    requires 0 < |data| <= CHUNK
    ensures AllTimely(Start(MIN_HEADER), Closing(data) + [DataArrives(1)])
  {
    var w, c0 := Start(MIN_HEADER), NewConn(MIN_HEADER);
    var write, close := Runs.Writes(STREAM, data, CHUNK, true, 0), Runs.Closes(STREAM, 0);
    assert c0.log.finished == {} && w.snd == c0 && OnTime(c0, 0);
    WrittenIs(data);
    assert Possible(w, Sender(write)) && Timely(w, Sender(write)) && Closing(data) == [Sender(write), Sender(close)];
    assert Apply(w, Sender(write)) == w.(snd := Opening(data)) by { hide Write, NewConn; }
    assert Timely(w.(snd := Opening(data)), Sender(close)) by { hide Opening, NewConn; }
    hide *;
    TwoTimely(w, Sender(write), Sender(close));
    DataTimely(Run(w, Closing(data)), 1);
    TimelyMore(w, Closing(data), [DataArrives(1)]);
  }

  lemma RoundTimely(w: World, f: AckFrame, at: int)
    requires Printed(f, w.arrived) && OnTime(w.snd, at)
    ensures AllTimely(w, [AckSent(f), AckArrives(f, at, 0)])
  {
    hide AllTimely, OnTime, AckTracker.ExactDownToLowest, HandleAckFrame;
    TwoTimely(w, AckSent(f), AckArrives(f, at, 0));
  }

  lemma ClosedOnTime(data: seq<byte>)
    requires 0 < |data| <= CHUNK
    ensures OnTime(Closed(data), RTT)
  {
    ClosedIs(data);
    hide Closed;
  }

  /** No timer of the sender is due before any step of the run. */
  lemma EventsTimely(data: seq<byte>)
    requires 0 < |data| <= CHUNK
    ensures AllTimely(Start(MIN_HEADER), Events(data))
  {
    hide *;
    var w, head, mid := Start(MIN_HEADER), Closing(data) + [DataArrives(1)], Middle();
    EventsAre(data);
    ClosingTimely(data);
    FirstHalf(data);
    MiddleTimely(data);
    TimelyMore(w, head, mid);
    RunMore(w, head, mid);
    LastTimely(data);
    TimelyMore(w, head + mid, [AckSent(BothAck()), AckArrives(BothAck(), BOTH, 0)]);
  }

  /** The FIN's round, and the data. */
  function Middle(): seq<Event> { [AckSent(FinAck()), AckArrives(FinAck(), RTT, 0)] + [DataArrives(0)] }

  lemma EventsAre(data: seq<byte>)
    ensures Events(data) == Closing(data) + [DataArrives(1)] + Middle()
                            + [AckSent(BothAck()), AckArrives(BothAck(), BOTH, 0)]
  {
    hide Closing, FinAck, BothAck;
  }

  lemma MiddleTimely(data: seq<byte>)
    requires 0 < |data| <= CHUNK
    ensures AllTimely(Overtaken(data), Middle())
  {
    MiddleIs();
    hide *;
    var acks := [AckSent(FinAck()), AckArrives(FinAck(), RTT, 0)];
    DataTimely(Run(Overtaken(data), acks), 0);
    Shapes(data);
    FinPrinted();
    ClosedOnTime(data);
    RoundTimely(Overtaken(data), FinAck(), RTT);
    TimelyMore(Overtaken(data), acks, [DataArrives(0)]);
  }

  lemma MiddleIs()
    ensures Middle() == [AckSent(FinAck()), AckArrives(FinAck(), RTT, 0)] + [DataArrives(0)]
  {
    hide FinAck;
  }

  lemma LastTimely(data: seq<byte>)
    requires 0 < |data| <= CHUNK
    ensures AllTimely(Run(Overtaken(data), Middle()), [AckSent(BothAck()), AckArrives(BothAck(), BOTH, 0)])
  {
    hide *;
    SecondHalf(data);
    BothPrinted();
    FinAckedIs(data);
    RoundTimely(Run(Overtaken(data), Middle()), BothAck(), BOTH);
  }

  lemma DataTimely(w: World, x: nat)
    ensures AllTimely(w, [DataArrives(x)])
  {
    OneTimely(w, DataArrives(x));
  }

  /** Whatever one frame of data a stream carries: after this run nothing is outstanding,
      every byte is delivered and the sender has closed the stream, and the receiver does
      not know. A reader who takes the bytes then waits, unless a second copy of the FIN is
      still on its way. No timer of the sender was due before any step, and the ACKs are
      the frames the receiver prints, the data arriving ten milliseconds after the FIN. */
  lemma EndGoesUnseen(data: seq<byte>)
    requires 0 < |data| <= CHUNK
    ensures var w := Run(Start(MIN_HEADER), Events(data));
            && !Runs.Outstanding(w.snd) && STREAM in w.snd.log.finished && Written(w.snd, STREAM) == data
            && STREAM in w.streams && w.streams[STREAM].offset == |data| && w.streams[STREAM].buf == data
            && !w.streams[STREAM].violation
            && !StreamEnd.FinSeen(w, STREAM) && !w.streams[STREAM].finReceived
    ensures AllTimely(Start(MIN_HEADER), Events(data))
    ensures Printed(FinAck(), {1}) && FinAck().ackDelay == Receiving.Waited(RTT / 2, RTT / 2)
    ensures Printed(BothAck(), {1, 0}) && BothAck().ackDelay == Receiving.Waited(RTT / 2, RTT / 2 + LATE * MILLISECOND)
  {
    EventsTimely(data);
    Delays();
    Shapes(data);
    Opens(data);
    Ended(data);
    hide Run, Overtaken, Closed, FinAcked, BothAcked, Events, HandleAckFrame, Printed, Runs.Outstanding, Written;
    hide AllTimely, Receiving.Waited;
    hide FinAck, BothAck, Opened;
    Parts(data);
    SecondHalf(data);
    FinPrinted();
    BothPrinted();
    BothAckedIs(data);
    var w := Run(Overtaken(data), Middle());
    AckRound(w, BothAck(), BOTH, 0);
  }

  lemma Ended(data: seq<byte>)
    requires 0 < |data| <= CHUNK
    ensures Written(BothAcked(data), STREAM) == data && STREAM in BothAcked(data).log.finished
  {
    hide *;
    Shapes(data);
    FinAckedIs(data);
    Runs.AckRests(FinAcked(data), BothAck(), BOTH, 0);
    GrowsTrans(ViewOf(Closed(data)), ViewOf(FinAcked(data)), ViewOf(BothAcked(data)));
    StillClosed(data, BothAcked(data));
  }

  lemma Delays()
    ensures FinAck().ackDelay == Receiving.Waited(RTT / 2, RTT / 2)
    ensures BothAck().ackDelay == Receiving.Waited(RTT / 2, RTT / 2 + LATE * MILLISECOND)
  {
  }
}
