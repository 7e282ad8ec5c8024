/** A run that goes quiet, step by step as the code takes them. The path is found to
    carry full packets, one is sent, and three probe timeouts in a row are read as a
    black hole: the third sends the packet again in two pieces, the second of whose
    headers is never booked. The stream is then closed. The ACK for both pieces empties
    the flight, so the probe timer stops, and the FIN is left outstanding with no timer
    at all. Every ACK of the run is the frame the receiver prints for what arrived. */
module QuietRun {
  import opened Frames
  import opened Packets
  import opened Sending
  import opened Custody
  import opened Recovery
  import opened Runs
  import opened Scenes
  import opened Stalling
  import Congestion
  import EndToEnd
  import Pacing
  import PathMtu
  import Streams

  const OVERHEAD: nat := MIN_HEADER + STREAM_FRAME_HEADER
  const CHUNK: nat := MAX_DATAGRAM_SIZE - STREAM_CHUNK_OVERHEAD
  const PIECE: nat := SAFE_DATAGRAM_SIZE - OVERHEAD

  datatype Timing = Timing(srtt: int, rttVar: int, first: bool, timer: Option<int>)

  /** What the example follows through the run. */
  datatype Snap = Snap(next: nat, refs: nat, sent: map<nat, SentPacket>, inflight: nat, written: nat,
                       mtu: PathMtu.Search, ptos: nat, largest: int, timing: Timing)

  function TimingOf(cc: Congestion.Controller): Timing {
    Timing(cc.smoothedRtt, cc.rttVar, cc.firstRttSample, cc.ptoTimer)
  }

  predicate At(c: Conn, s: Snap) {
    && c.hdr == MIN_HEADER && c.queue == [] && c.log.finished == {}
    && c.pm.lossTimer.None? && c.lostTimer.None?
    && s == Snap(c.pm.nextSeq, c.nextRef, c.pm.sent, c.cc.inflight, |Written(c, STREAM)|, c.mtu, c.cc.ptoCount,
                 c.pm.largestAcked, TimingOf(c.cc))
  }

  /** The wait for the probe timer after `ptos` timeouts in a row. */
  function Wait(t: Timing, ptos: nat): int {
    Congestion.Doubled(t.srtt + Max(4 * t.rttVar, Congestion.GRANULARITY) + MAX_ACK_DELAY, Min(ptos, 20))
  }

  function Armed(t: Timing, at: int): Timing { t.(timer := Some(at)) }

  lemma SentTiming(cc: Congestion.Controller, bytes: nat, now: int)
    ensures TimingOf(Congestion.OnPacketSent(cc, bytes, now)) ==
            Armed(TimingOf(cc), now + Max(Wait(TimingOf(cc), cc.ptoCount), Congestion.GRANULARITY))
  {
    hide Congestion.Doubled;
  }

  lemma RearmedTiming(cc: Congestion.Controller, now: int)
    requires cc.inflight > 0 && cc.ptoTimer.None?
    ensures TimingOf(Congestion.PtoRearmed(cc, now)) == Armed(TimingOf(cc), now + Wait(TimingOf(cc), cc.ptoCount))
  {
    hide Congestion.Doubled;
  }

  function Packet(ref: nat, sequence: nat, now: int, f: StreamFrame): SentPacket {
    SentPacket(ref, sequence, now, MIN_HEADER + FrameLen(Stream(f)), false, [Stream(f)], STREAM, false)
  }

  // ----- Sending -----

  function Sent(s: Snap, f: StreamFrame, now: int): Snap {
    s.(next := s.next + 1, refs := s.refs + 1, sent := s.sent[s.next := Packet(s.refs, s.next, now, f)],
       inflight := s.inflight + OVERHEAD + |f.data|, written := s.written + |f.data|,
       timing := Armed(s.timing, now + Max(Wait(s.timing, s.ptos), Congestion.GRANULARITY)))
  }

  lemma SendAt(c: Conn, s: Snap, f: StreamFrame, paced: bool, now: int)
    requires At(c, s)
    ensures At(SendData(c, STREAM, f, paced, now), Sent(s, f, now))
  {
    SentController(c.cc, PacketSize(c, f), now);
    SentTiming(c.cc, PacketSize(c, f), now);
    hide Pacing.OnSent, Congestion.NextPto, Wait;
  }

  lemma WriteAt(c: Conn, s: Snap, data: seq<byte>, chunk: nat, isSyn: bool, now: int)
    requires At(c, s) && 0 < |data| <= chunk
    ensures At(Write(c, STREAM, data, chunk, isSyn, now), Sent(s, StreamFrame(false, isSyn, s.written, data), now))
  {
    var f := StreamFrame(false, isSyn, s.written, data);
    OneChunk(s.written, data, chunk, isSyn);
    hide Streams.Chunks;
    SendOne(c, f, now);
    SendAt(c, s, f, true, now);
  }

  lemma SendOne(c: Conn, f: StreamFrame, now: int)
    ensures SendAll(c, STREAM, [f], now) == SendData(c, STREAM, f, true, now)
  {
    hide SendData;
    assert [f][..0] == [];
  }

  lemma OneChunk(offset: nat, data: seq<byte>, chunk: nat, isSyn: bool)
    requires 0 < |data| <= chunk
    ensures Streams.Chunks(offset, data, chunk, isSyn, false) == [StreamFrame(false, isSyn, offset, data)]
  {
    assert data[..|data|] == data && data[|data|..] == [];
    assert Streams.Chunks(offset + |data|, [], chunk, false, false) == [];
  }

  // ----- An ACK for the only packet tracked -----

  /** `at` is the connection just before it looks for a probe to send. */
  lemma AckAt(c: Conn, s: Snap, f: AckFrame, p: SentPacket, now: int) returns (at: Conn)
    requires At(c, s) && s.sent == map[f.largestAcked := p] && Only(f) && p.sequence == f.largestAcked
    requires p.sentTime <= now && s.inflight <= Weight(p)
    ensures HandleAckFrame(c, f, now, 0) == ProbeMtu(at, now)
    ensures At(at, s.(sent := map[], inflight := 0, mtu := MtuAfterAck(s.mtu, [p.(isAcked := true)]), ptos := 0,
                      largest := Max(s.largest, f.largestAcked), timing := Sampled(s.timing, now - p.sentTime)))
  {
    hide HandleAckFrame, HandleAck, AckTaken, MtuAfterAck, Sampled, ProbeMtu, DetectLost, FlushLost, Only;
    var c1 := AckTaken(c, f, now, 0);
    TakeOnly(c.pm, f, p, now);
    HandleAckIs(c, f, now, 0);
    TakenAt(c, s, f, p, now);
    at := FlushLost(DetectLost(c1, now), now);
    NothingFollows(c1, now);
  }

  /** A frame that reports no delay, for its largest and perhaps sequence 0. */
  ghost predicate Only(f: AckFrame) {
    f.ackDelay == 0 && (Expand(f) == [f.largestAcked] || (Expand(f) == [f.largestAcked, 0] && f.largestAcked != 0))
  }

  lemma TakenAt(c: Conn, s: Snap, f: AckFrame, p: SentPacket, now: int)
    requires At(c, s) && s.sent == map[f.largestAcked := p] && Only(f) && p.sequence == f.largestAcked
    requires p.sentTime <= now && s.inflight <= Weight(p)
    ensures At(AckTaken(c, f, now, 0),
               s.(sent := map[], inflight := 0, mtu := MtuAfterAck(s.mtu, [p.(isAcked := true)]), ptos := 0,
                  largest := Max(s.largest, f.largestAcked), timing := Sampled(s.timing, now - p.sentTime)))
  {
    var q := p.(isAcked := true);
    TakeOnly(c.pm, f, p, now);
    SampledTiming(c.cc, DataSize([q]), p.sentTime, f.largestAcked, now);
    assert DataSize([q]) == Weight(p) by { assert [q][..0] == []; }
    assert LargestSample([q], f.largestAcked) == Some(p.sentTime);
    hide HandleAck, Congestion.OnPacketAcked, MtuAfterAck, DataSize, LargestSample, Sampled, Expand;
  }

  /** With nothing tracked or queued, an ACK sets nothing else off. */
  lemma NothingFollows(c: Conn, now: int)
    requires c.pm.sent == map[] && c.queue == []
    ensures var c' := FlushLost(DetectLost(c, now), now);
            c' == c.(pm := c.pm.(lossTimer := None), lostTimer := None)
  {
    NoneBehind(c.pm, now, LossDelay(c.cc.smoothedRtt, c.cc.latestRtt));
    hide Detect, LossDelay;
  }

  lemma TakeOnly(m: Manager, f: AckFrame, p: SentPacket, now: int)
    requires m.sent == map[f.largestAcked := p] && Only(f)
    ensures HandleAck(m, f, now)
         == (m.(sent := map[], ackBeforeLoss := m.lastAckTime, lastAckTime := Some(now),
                largestAcked := Max(m.largestAcked, f.largestAcked)),
             [p.(isAcked := true)])
  {
    var k := f.largestAcked;
    assert [k][..0] == [] && [k, 0][..1] == [k];
    assert TakeAll(m.sent, []) == (m.sent, []);
    assert m.sent - {k} == map[] && [] + [p.(isAcked := true)] == [p.(isAcked := true)];
    assert TakeAll(m.sent, [k]) == (map[], [p.(isAcked := true)]);
    assert TakeAll(m.sent, [k, 0]) == (map[], [p.(isAcked := true)]);
    hide Expand;
  }

  /** The estimates after a sample that reports no delay, with nothing left in flight. */
  function Sampled(t: Timing, latest: int): Timing {
    if t.first then Timing(latest, latest / 2, false, None)
    else
      var off := if t.srtt >= latest then t.srtt - latest else latest - t.srtt;
      Timing((7 * t.srtt + latest) / 8, (3 * t.rttVar + off) / 4, false, None)
  }

  lemma SampledTiming(cc: Congestion.Controller, bytes: nat, sentTime: int, largest: int, now: int)
    requires sentTime <= now && cc.inflight <= bytes
    ensures var cc' := Congestion.OnPacketAcked(cc, bytes, Some(sentTime), 0, largest, now, 0);
            cc'.inflight == 0 && cc'.ptoCount == 0 && TimingOf(cc') == Sampled(TimingOf(cc), now - sentTime)
  {
    hide Congestion.NextPto, Pacing.UpdateRate;
  }

  lemma NoneBehind(m: Manager, now: int, d: int)
    requires forall s <- m.sent :: s > m.largestAcked
    ensures Detect(m, now, d) == (m.(lossTimer := None), [])
  {
    assert LostKeys(m, now, d) == {} && WaitingKeys(m, now, d) == {};
    assert m.sent - {} == m.sent;
  }

  /** The probe an ACK sets off, when the search wants one. */
  lemma ProbeAt(c: Conn, s: Snap, now: int)
    requires At(c, s) && !s.timing.first && s.mtu == PathMtu.Start()
    ensures var p := SentPacket(s.refs, s.next, now, MAX_DATAGRAM_SIZE, false,
                                [MtuProbe(MAX_DATAGRAM_SIZE - MIN_HEADER)], 0, true);
            At(ProbeMtu(c, now), s.(next := s.next + 1, refs := s.refs + 1, sent := s.sent[s.next := p],
                                    mtu := s.mtu.(inFlight := true)))
  {
  }

  lemma NoProbeAt(c: Conn, s: Snap, now: int)
    requires At(c, s) && s.mtu.done && s.mtu.retryAt.None?
    ensures At(ProbeMtu(c, now), s)
  {
  }

  // ----- Probe timeouts -----

  /** The state the probes are sent from, and what the timer does after them. */
  lemma ExpiredAt(c: Conn, s: Snap, now: int)
    requires At(c, s)
    ensures var c0 := c.(cc := Congestion.PtoExpired(c.cc));
            && At(c0, s.(ptos := s.ptos + 1, timing := s.timing.(timer := None)))
            && PtoFires(c, now) == OnPto(c0, now).(cc := Congestion.PtoRearmed(OnPto(c0, now).cc, now))
  {
    hide OnPto, Congestion.PtoRearmed;
  }

  lemma RearmedAt(c: Conn, s: Snap, now: int)
    requires At(c, s) && s.inflight > 0 && s.timing.timer.None?
    ensures At(c.(cc := Congestion.PtoRearmed(c.cc, now)), s.(timing := Armed(s.timing, now + Wait(s.timing, s.ptos))))
  {
    RearmedTiming(c.cc, now);
    hide Congestion.NextPto, Wait;
  }

  lemma OtherTimer(t: Timing, ptos: nat)
    ensures Wait(t.(timer := None), ptos) == Wait(t, ptos)
  {
  }

  /** A timeout that fits the path: the packet moves to the next sequence. */
  lemma PtoAt(c: Conn, s: Snap, k: nat, p: SentPacket, now: int)
    requires At(c, s) && s.sent == map[k := p] && p.sequence == k && IsData(p) && !p.isAcked
    requires p.size <= s.mtu.current && s.ptos < 2 && s.inflight > 0
    ensures At(PtoFires(c, now), s.(next := s.next + 1, sent := map[s.next := p.(sequence := s.next, sentTime := now)],
                                    ptos := s.ptos + 1, timing := Armed(s.timing, now + Wait(s.timing, s.ptos + 1))))
  {
    var c0 := c.(cc := Congestion.PtoExpired(c.cc));
    ExpiredAt(c, s, now);
    var s0 := s.(ptos := s.ptos + 1, timing := s.timing.(timer := None));
    ProbedAt(c0, s0, k, p, now);
    OtherTimer(s.timing, s.ptos + 1);
    hide At, OnPto, Wait, PtoFires, Congestion.PtoRearmed;
    RearmedAt(OnPto(c0, now),
              s0.(next := s.next + 1, sent := map[s.next := p.(sequence := s.next, sentTime := now)]), now);
  }

  lemma ProbedAt(c: Conn, s: Snap, k: nat, p: SentPacket, now: int)
    requires At(c, s) && s.sent == map[k := p] && p.sequence == k && IsData(p) && !p.isAcked
    requires p.size <= s.mtu.current && s.ptos < 3
    ensures At(OnPto(c, now), s.(next := s.next + 1, sent := map[s.next := p.(sequence := s.next, sentTime := now)]))
  {
    OnlyOne(c.pm, k, p);
    ProbeAll(c, p, now);
    ProbeOneIs(c, p, now);
    assert OnPto(c, now) == ProbeWith(c, p, now) by { hide ProbeEach, Oldest, ProbeWith; }
    assert c.pm.sent - {k} == map[];
    hide OnPto, Pacing.OnSent;
  }

  /** The third in a row: the size falls back and the packet goes out in two pieces. */
  lemma PtoSplits(c: Conn, s: Snap, k: nat, p: SentPacket, offset: nat, now: int)
    requires At(c, s) && s.sent == map[k := p] && s.ptos == 2 && s.mtu.current > SAFE_DATAGRAM_SIZE && s.inflight > 0
    requires p == Packet(p.ref, k, p.sentTime, StreamFrame(false, false, offset, Zeros(CHUNK)))
    ensures At(PtoFires(c, now),
               s.(next := s.next + 2, refs := s.refs + 2, mtu := PathMtu.Blackhole(s.mtu, now), ptos := 3,
                  timing := Armed(s.timing, now + Wait(s.timing, 3)), sent := TwoSent(s.next, s.refs, offset, now)))
  {
    hide Packet, Zeros, First, Second, TwoSent, PathMtu.Blackhole;
    var c0 := c.(cc := Congestion.PtoExpired(c.cc));
    ExpiredAt(c, s, now);
    var s0 := s.(ptos := 3, timing := s.timing.(timer := None));
    OtherTimer(s.timing, 3);
    hide At, OnPto, Wait, PtoFires, Congestion.PtoRearmed;
    SplitAt(c0, s0, k, p, offset, now);
    RearmedAt(OnPto(c0, now), s0.(next := s.next + 2, refs := s.refs + 2, mtu := PathMtu.Blackhole(s.mtu, now),
                                  sent := TwoSent(s.next, s.refs, offset, now)), now);
  }

  /** The two pieces, under the next two sequences. */
  function TwoSent(next: nat, refs: nat, offset: nat, now: int): map<nat, SentPacket> {
    map[next := Packet(refs, next, now, First(offset)), next + 1 := Packet(refs + 1, next + 1, now, Second(offset))]
  }

  lemma SplitAt(c: Conn, s: Snap, k: nat, p: SentPacket, offset: nat, now: int)
    requires At(c, s) && s.sent == map[k := p] && s.ptos == 3 && s.mtu.current > SAFE_DATAGRAM_SIZE
    requires p == Packet(p.ref, k, p.sentTime, StreamFrame(false, false, offset, Zeros(CHUNK)))
    ensures At(OnPto(c, now), s.(next := s.next + 2, refs := s.refs + 2, mtu := PathMtu.Blackhole(s.mtu, now),
                                 sent := TwoSent(s.next, s.refs, offset, now)))
  {
    var c1 := c.(mtu := PathMtu.Blackhole(c.mtu, now));
    OnlyOne(c1.pm, k, p);
    ProbeAll(c1, p, now);
    assert OnPto(c, now) == ProbeOne(c1, p, now) by { hide ProbeEach, Oldest, ProbeOne, Packet, Zeros; }
    hide OnPto, ProbeOne, ProbeEach, Oldest, Packet, Zeros, First, Second;
    ProbeBoth(c1, s.(mtu := c1.mtu), k, p, offset, now);
  }

  function First(offset: nat): StreamFrame { StreamFrame(false, false, offset, Zeros(CHUNK)[..PIECE]) }

  function Second(offset: nat): StreamFrame { StreamFrame(false, false, offset + PIECE, Zeros(CHUNK)[PIECE..]) }

  lemma OnlyOne(m: Manager, k: nat, p: SentPacket)
    requires m.sent == map[k := p] && !p.probe
    ensures Oldest(m, PTO_PROBES) == [p]
  {
    assert DataKeys(m) == {k};
    assert InOrder(m.sent, {k}) == [p] + InOrder(m.sent, {}) by {
      assert Least({k}) == k;
      assert {k} - {k} == {};
    }
  }

  lemma ProbeAll(c: Conn, p: SentPacket, now: int)
    ensures ProbeEach(c, [p], now) == ProbeOne(c, p, now)
  {
    hide ProbeOne;
    assert [p][..0] == [];
  }

  lemma ProbeBoth(c: Conn, s: Snap, k: nat, p: SentPacket, offset: nat, now: int)
    requires At(c, s) && s.sent == map[k := p] && s.mtu.current == SAFE_DATAGRAM_SIZE
    requires p == Packet(p.ref, k, p.sentTime, StreamFrame(false, false, offset, Zeros(CHUNK)))
    ensures var c' := ProbeOne(c, p, now);
            At(c', s.(next := s.next + 2, refs := s.refs + 2, sent := TwoSent(s.next, s.refs, offset, now)))
  {
    var q, r := Packet(s.refs, 0, 0, First(offset)), Packet(s.refs + 1, 0, 0, Second(offset));
    TwoPieces(c, p, offset);
    assert Pieces(c, p) == [q, r] by { hide First, Second; }
    assert ProbeOne(c, p, now) == Probe(SplitUnbooked(c, p), [q, r], now)
    by { hide Probe, SplitUnbooked, Packet, First, Second; }
    hide ProbeOne, Pieces, Probe, First, Second, Zeros, MustSplit;
    var c1 := SplitUnbooked(c, p);
    assert c.pm.sent - {k} == map[];
    assert c1.pm == c.pm.(sent := map[]);
    TwoProbes(c1, q, r, now);
  }

  lemma TwoPieces(c: Conn, p: SentPacket, offset: nat)
    requires c.hdr == MIN_HEADER && c.mtu.current == SAFE_DATAGRAM_SIZE
    requires p == Packet(p.ref, p.sequence, p.sentTime, StreamFrame(false, false, offset, Zeros(CHUNK)))
    ensures MustSplit(c, p) && PieceFrames(c, p) == [First(offset), Second(offset)]
  {
    OneChunk(offset + PIECE, Zeros(CHUNK)[PIECE..], PIECE, false);
  }

  lemma TwoProbes(c: Conn, q: SentPacket, r: SentPacket, now: int)
    requires c.pm.sent == map[] && IsData(q) && IsData(r) && !q.isAcked && !r.isAcked && q.ref != r.ref
    ensures var c', n := Probe(c, [q, r], now), c.pm.nextSeq;
            && c'.pm.sent == map[n := q.(sequence := n, sentTime := now),
                                 n + 1 := r.(sequence := n + 1, sentTime := now)]
            && c'.pm.nextSeq == n + 2 && c'.nextRef == c.nextRef && c'.queue == c.queue && c'.hdr == c.hdr
            && c'.mtu == c.mtu
            && c'.cc == c.cc.(pacer := c'.cc.pacer) && c'.log == c.log && c'.pm.largestAcked == c.pm.largestAcked
            && c'.pm.lossTimer == c.pm.lossTimer && c'.lostTimer == c.lostTimer
  {
    assert Probe(c, [q, r], now) == ProbeWith(ProbeWith(c, q, now), r, now) by {
      hide ProbeWith;
      assert [q, r][..1] == [q] && [q][..0] == [];
      assert Probe(c, [q], now) == ProbeWith(Probe(c, [], now), q, now);
    }
    hide Probe, Pacing.OnSent;
  }

  // ----- The run -----

  /** When each step happens: the probe timeouts when their timer is due. */
  function TimeOf(k: nat): int {
    if k <= 3 then k * SECOND
    else if k == 4 then 5525 * MILLISECOND
    else if k == 5 then 10575 * MILLISECOND
    else if k == 6 then 20675 * MILLISECOND
    else (14 + k) * SECOND
  }

  function StepNo(k: nat): Step {
    if k == 0 then Writes(STREAM, Zeros(1), SAFE_DATAGRAM_SIZE - STREAM_CHUNK_OVERHEAD, true, TimeOf(k))
    else if k == 1 then Acks(AckFrame(0, 0, 1, []), TimeOf(k), 0)
    else if k == 2 then Acks(AckFrame(1, 0, 2, []), TimeOf(k), 0)
    else if k == 3 then Writes(STREAM, Zeros(CHUNK), CHUNK, false, TimeOf(k))
    else if k <= 6 then Pto(TimeOf(k))
    else if k == 7 then Closes(STREAM, TimeOf(k))
    else Acks(LastAck(), TimeOf(k), 0)
  }

  /** For 6, 5, 1 and 0. */
  function LastAck(): AckFrame { AckFrame(6, 0, 2, [AckRange(3, 2)]) }

  function Steps(k: nat): seq<Step> {
    if k == 0 then [] else Steps(k - 1) + [StepNo(k - 1)]
  }

  ghost function After(k: nat): Conn { Run(NewConn(MIN_HEADER), Steps(k)) }

  lemma NextStep(k: nat)
    requires Possible(After(k), StepNo(k))
    ensures After(k + 1) == Apply(After(k), StepNo(k))
  {
    hide NewConn, Apply, StepNo;
    StepsMore(k);
  }

  lemma StepsMore(k: nat)
    ensures var all := Steps(k + 1); all != [] && all[|all| - 1] == StepNo(k) && all[..|all| - 1] == Steps(k)
  {
    hide StepNo;
  }

  lemma AfterRests(k: nat)
    ensures Rest(After(k))
  {
    NewConnRests(MIN_HEADER);
    hide NewConn, Rest, Run, Steps, Grows, NeverRechunks;
    RunRests(NewConn(MIN_HEADER), Steps(k));
  }

  /** The state after each of the first steps. */
  function SnapAt(k: nat): Snap {
    var m := PathMtu.Start();
    var found := m.(current := MAX_DATAGRAM_SIZE, probe := 0, done := true);
    var probe := SentPacket(1, 1, SECOND, MAX_DATAGRAM_SIZE, false,
                            [MtuProbe(MAX_DATAGRAM_SIZE - MIN_HEADER)], 0, true);
    var initial := Timing(Congestion.INITIAL_RTT, Congestion.INITIAL_RTT / 2, true, None);
    var timing := Timing(SECOND, 375 * MILLISECOND, false, None);
    if k == 0 then Snap(0, 0, map[], 0, 0, m, 0, -1, initial)
    else if k == 1 then
      Snap(1, 1, map[0 := Packet(0, 0, 0, StreamFrame(false, true, 0, Zeros(1)))], OVERHEAD + 1, 1, m, 0, -1,
           Armed(initial, Max(Wait(initial, 0), Congestion.GRANULARITY)))
    else if k == 2 then
      Snap(2, 2, map[1 := probe], 0, 1, m.(inFlight := true), 0, 0, timing.(rttVar := 500 * MILLISECOND))
    else if k == 3 then Snap(2, 2, map[], 0, 1, found, 0, 1, timing)
    else Snap(k - 1, 3, map[k - 2 := Packet(2, k - 2, TimeOf(k - 1), StreamFrame(false, false, 1, Zeros(CHUNK)))],
              OVERHEAD + CHUNK, 1 + CHUNK, found, k - 4, 1, Armed(timing, TimeOf(k)))
  }

  /** Two and a half seconds, doubling. */
  lemma Waits()
    ensures var t := Timing(SECOND, 375 * MILLISECOND, false, None);
            && Wait(t, 0) == 2525 * MILLISECOND && Wait(t, 1) == 5050 * MILLISECOND
            && Wait(t, 2) == 10100 * MILLISECOND && Wait(t, 3) == 20200 * MILLISECOND
  {
    var b := 2525 * MILLISECOND;
    assert Congestion.Doubled(b, 1) == Congestion.Doubled(2 * b, 0);
    assert Congestion.Doubled(b, 2) == Congestion.Doubled(2 * b, 1) == Congestion.Doubled(4 * b, 0);
    assert Congestion.Doubled(b, 3) == Congestion.Doubled(2 * b, 2) == Congestion.Doubled(4 * b, 1);
    assert Congestion.Doubled(4 * b, 1) == Congestion.Doubled(8 * b, 0);
  }

  lemma SameWait(t: Timing, at: int, ptos: nat)
    ensures Wait(Armed(t, at), ptos) == Wait(t, ptos)
  {
  }

  lemma Start()
    ensures At(After(0), SnapAt(0))
  {
  }

  lemma AtOpen(c: Conn, s: Snap)
    requires At(c, s)
    ensures c.log.finished == {}
  {
  }

  lemma Stage0(c: Conn)
    requires At(c, SnapAt(0))
    ensures Possible(c, StepNo(0)) && At(Apply(c, StepNo(0)), SnapAt(1))
  {
    hide At, Write;
    AtOpen(c, SnapAt(0));
    WriteAt(c, SnapAt(0), Zeros(1), SAFE_DATAGRAM_SIZE - STREAM_CHUNK_OVERHEAD, true, 0);
    assert map[][0 := Packet(0, 0, 0, StreamFrame(false, true, 0, Zeros(1)))] == SnapAt(1).sent;
  }

  lemma Stage1(c: Conn)
    requires At(c, SnapAt(1))
    ensures At(Apply(c, StepNo(1)), SnapAt(2))
  {
    hide At, HandleAckFrame, ProbeMtu, Rest, MtuAfterAck;
    var p := SnapAt(1).sent[0];
    SmallAcked(SnapAt(1).mtu, p.(isAcked := true));
    Expanded();
    var c1 := AckAt(c, SnapAt(1), AckFrame(0, 0, 1, []), p, SECOND);
    ProbeAt(c1, SnapAt(1).(sent := map[], inflight := 0, largest := 0, timing := SnapAt(2).timing), SECOND);
  }

  lemma Expanded()
    ensures Expand(AckFrame(0, 0, 1, [])) == [0] && Expand(AckFrame(1, 0, 2, [])) == [1, 0]
    ensures Expand(LastAck()) == [6, 5, 1, 0]
  {
    assert RangeDown(1, 2) == [1] + RangeDown(0, 1) == [1, 0];
    assert RangeDown(6, 2) == [6] + RangeDown(5, 1) == [6, 5];
    assert ExpandRanges(4, [AckRange(3, 2)]) == RangeDown(1, 2) + ExpandRanges(-1, []);
  }

  lemma SmallAcked(m: PathMtu.Search, q: SentPacket)
    requires !q.probe && q.size <= SAFE_DATAGRAM_SIZE
    ensures MtuAfterAck(m, [q]) == m
  {
    assert [q][..0] == [];
  }

  lemma Stage2(c: Conn)
    requires At(c, SnapAt(2))
    ensures At(Apply(c, StepNo(2)), SnapAt(3))
  {
    hide At, HandleAckFrame, ProbeMtu, Rest, MtuAfterAck;
    var p := SnapAt(2).sent[1];
    ProbeArrived(SnapAt(2).mtu, p.(isAcked := true));
    Expanded();
    var c1 := AckAt(c, SnapAt(2), AckFrame(1, 0, 2, []), p, 2 * SECOND);
    NoProbeAt(c1, SnapAt(3), 2 * SECOND);
  }

  lemma ProbeArrived(m: PathMtu.Search, q: SentPacket)
    requires q.probe && q.size == MAX_DATAGRAM_SIZE && m == PathMtu.Start().(inFlight := true)
    ensures MtuAfterAck(m, [q]) == SnapAt(3).mtu
  {
    assert [q][..0] == [];
  }

  lemma Stage3(c: Conn)
    requires At(c, SnapAt(3))
    ensures Possible(c, StepNo(3)) && At(Apply(c, StepNo(3)), SnapAt(4))
  {
    hide At, Write;
    AtOpen(c, SnapAt(3));
    Waits();
    WriteAt(c, SnapAt(3), Zeros(CHUNK), CHUNK, false, 3 * SECOND);
    hide Wait;
    assert map[][2 := SnapAt(4).sent[2]] == SnapAt(4).sent;
  }

  lemma Stage4(c: Conn, k: nat)
    requires 4 <= k <= 5 && At(c, SnapAt(k))
    ensures At(Apply(c, StepNo(k)), SnapAt(k + 1))
  {
    hide At, PtoFires;
    Waits();
    SameWait(SnapAt(3).timing, TimeOf(k), k - 3);
    PtoAt(c, SnapAt(k), k - 2, SnapAt(k).sent[k - 2], TimeOf(k));
    hide Wait;
  }

  function Split(): Snap {
    var s := SnapAt(6);
    s.(next := 7, refs := 5, mtu := PathMtu.Blackhole(s.mtu, TimeOf(6)), ptos := 3,
       timing := Armed(s.timing, TimeOf(6) + Wait(s.timing, 3)),
       sent := TwoSent(5, 3, 1, TimeOf(6)))
  }

  lemma Stage6(c: Conn)
    requires At(c, SnapAt(6))
    ensures At(Apply(c, StepNo(6)), Split())
  {
    hide At, PtoFires;
    hide Wait;
    PtoSplits(c, SnapAt(6), 4, SnapAt(6).sent[4], 1, TimeOf(6));
  }

  /** Both pieces and the FIN are tracked, the flight is one header short of them, and only
      the probe timer is set, for later. */
  ghost predicate Short(c: Conn) {
    && c.pm.lossTimer.None? && c.lostTimer.None? && NotBefore(c.cc.ptoTimer, TimeOf(8))
    && c.queue == [] && c.pm.largestAcked == 1 && c.cc.inflight == 2 * OVERHEAD + CHUNK
    && c.pm.sent == Split().sent[7 := Packet(5, 7, TimeOf(7), StreamFrame(true, false, 1 + CHUNK, []))]
  }

  lemma Stage7(c: Conn)
    requires At(c, Split())
    ensures Short(Apply(c, StepNo(7)))
  {
    SentController(c.cc, OVERHEAD, TimeOf(7));
    SentTiming(c.cc, OVERHEAD, TimeOf(7));
    LongWait(TimingOf(c.cc));
    hide Congestion.OnPacketSent, Zeros, Wait;
  }

  /** After three timeouts the probe timer is far off. */
  lemma LongWait(t: Timing)
    requires t == Split().timing
    ensures Wait(t, 3) == 20200 * MILLISECOND && Split().timing.timer == Some(TimeOf(6) + 20200 * MILLISECOND)
  {
    Waits();
    SameWait(SnapAt(3).timing, TimeOf(6), 3);
    SameWait(SnapAt(3).timing, TimeOf(6) + 20200 * MILLISECOND, 3);
    hide Wait;
  }

  lemma NotAWrite(c: Conn, k: nat)
    requires k != 0 && k != 3
    ensures Possible(c, StepNo(k))
  {
  }

  lemma InSteps()
    ensures Short(After(8)) && At(After(0), SnapAt(0)) && At(After(1), SnapAt(1)) && At(After(2), SnapAt(2))
    ensures At(After(3), SnapAt(3)) && At(After(4), SnapAt(4)) && At(After(5), SnapAt(5)) && At(After(6), SnapAt(6))
    ensures At(After(7), Split())
  {
    hide *;
    Start();
    Stage0(After(0));
    NextStep(0);
    NotAWrite(After(1), 1);
    Stage1(After(1));
    NextStep(1);
    NotAWrite(After(2), 2);
    Stage2(After(2));
    NextStep(2);
    Stage3(After(3));
    NextStep(3);
    NotAWrite(After(4), 4);
    Stage4(After(4), 4);
    NextStep(4);
    NotAWrite(After(5), 5);
    Stage4(After(5), 5);
    NextStep(5);
    NotAWrite(After(6), 6);
    Stage6(After(6));
    NextStep(6);
    NotAWrite(After(7), 7);
    Stage7(After(7));
    NextStep(7);
  }

  /** A step the code can take: frames are cut to the size found for the path, a probe
      timeout comes when its timer is due, and no timer was due before. */
  predicate AsTheCode(c: Conn, step: Step) {
    && (step.Writes? ==> step.chunk == c.mtu.current - STREAM_CHUNK_OVERHEAD)
    && (step.Pto? ==> c.cc.ptoTimer == Some(step.at)) && OnTime(c, step.at)
  }

  lemma Followed(c: Conn, k: nat)
    requires k <= 6 && At(c, SnapAt(k))
    ensures AsTheCode(c, StepNo(k))
  {
    FirstWait();
    hide Zeros, Packet, Wait;
  }

  /** The first probe timeout would come after more than a second. */
  lemma FirstWait()
    ensures Wait(Timing(Congestion.INITIAL_RTT, Congestion.INITIAL_RTT / 2, true, None), 0) > SECOND
  {
  }

  lemma FollowedLater(c: Conn, k: nat)
    requires (k == 7 && At(c, Split())) || (k == 8 && Short(c))
    ensures AsTheCode(c, StepNo(k))
  {
    LongWait(Split().timing);
    hide Zeros, Packet, Wait;
  }

  lemma AllAsTheCode()
    ensures forall k :: 0 <= k < 9 ==> AsTheCode(After(k), StepNo(k))
  {
    hide *;
    InSteps();
    forall k | 0 <= k < 9 ensures AsTheCode(After(k), StepNo(k)) {
      if k <= 6 { Followed(After(k), k); } else { FollowedLater(After(k), k); }
    }
  }

  // ----- Quiet -----

  lemma QuietAtEnd()
    ensures Quiet(After(9)) && After(9).pm.lossTimer.None?
  {
    hide *;
    var c, f, now := After(8), LastAck(), TimeOf(8);
    InSteps();
    NotAWrite(c, 8);
    NextStep(8);
    LastStep(c);
    AfterRests(8);
    LeavesTheFin(c);
    QuietAfterAck(c, f, now, 0);
    Disarmed(c, f, now, 0);
  }

  lemma LastStep(c: Conn)
    requires Possible(c, StepNo(8))
    ensures Apply(c, StepNo(8)) == HandleAckFrame(c, LastAck(), TimeOf(8), 0)
  {
    hide HandleAckFrame, LastAck;
  }

  lemma LeavesTheFin(c: Conn)
    requires Short(c)
    ensures var f := LastAck();
            && c.queue == [] && Names(c, f) && !LeavesBehind(c, f)
            && 0 < Total(Left(c, f)) && c.cc.inflight + Total(Left(c, f)) <= Total(c.pm.sent)
            && forall s <- Left(c, f) :: s > Max(c.pm.largestAcked, f.largestAcked)
  {
    var sent, f := c.pm.sent, LastAck();
    Sizes(c);
    Expanded();
    hide Short, Expand;
    assert 6 in sent && 6 in Expand(f);
    assert Left(c, f) == sent - {5} - {6} && Left(c, f).Keys == {7};
    TotalOfThree(sent);
    hide Total;
  }

  lemma Sizes(c: Conn)
    requires Short(c)
    ensures c.queue == [] && c.pm.largestAcked == 1 && c.pm.sent.Keys == {5, 6, 7}
    ensures forall s <- c.pm.sent :: !c.pm.sent[s].probe
    ensures c.cc.inflight == c.pm.sent[5].size + c.pm.sent[6].size < c.cc.inflight + c.pm.sent[7].size
  {
    hide Zeros;
  }

  lemma TotalOfThree(sent: map<nat, SentPacket>)
    requires sent.Keys == {5, 6, 7} && forall s <- sent :: !sent[s].probe
    ensures Total(sent) == sent[5].size + sent[6].size + sent[7].size
    ensures Total(sent - {5} - {6}) == sent[7].size
  {
    hide Total;
    TotalMinus(sent, 5);
    TotalMinus(sent - {5}, 6);
    TotalMinus(sent - {5} - {6}, 7);
    assert sent - {5} - {6} - {7} == map[];
    OnlyProbes(map[]);
  }

  // ----- The same run with its receiver -----

  /** What has arrived before step `k`. */
  function Arrived(k: nat): set<nat> {
    if k == 0 then {} else if k == 1 then {0} else if k <= 7 then {0, 1} else {0, 1, 5, 6}
  }

  /** The datagrams that arrive just before step `k`. Each is acknowledged at once: the
      first opens the stream, the second is a probe, and the pieces come out of order. */
  function Arrivals(k: nat): seq<EndToEnd.Event> {
    if k == 1 then [EndToEnd.DataArrives(0)]
    else if k == 2 then [EndToEnd.ProbeArrives(1)]
    else if k == 8 then [EndToEnd.DataArrives(6), EndToEnd.DataArrives(5)]
    else []
  }

  function EventsOf(k: nat): seq<EndToEnd.Event> {
    match StepNo(k)
    case Acks(f, at, target) => [EndToEnd.AckSent(f), EndToEnd.AckArrives(f, at, target)]
    case _ => [EndToEnd.Sender(StepNo(k))]
  }

  function Events(k: nat): seq<EndToEnd.Event> {
    if k == 0 then [] else Events(k - 1) + Arrivals(k - 1) + EventsOf(k - 1)
  }

  /** The frames acknowledge exactly what has arrived, as the tracker prints it. */
  lemma AllPrinted(k: nat)
    requires k < 9 && StepNo(k).Acks?
    ensures Printed(StepNo(k).frame, Arrived(k))
  {
    Expanded();
    hide Expand, Zeros;
  }

  ghost function WorldAt(k: nat): EndToEnd.World { EndToEnd.Run(EndToEnd.Start(MIN_HEADER), Events(k)) }

  /** The world so far: the sender's state and the arrivals. */
  ghost predicate InStep(k: nat) {
    WorldAt(k).snd == After(k) && WorldAt(k).arrived == Arrived(k - if k == 0 then 0 else 1)
  }

  lemma OnTheWay()
    ensures 0 in After(1).wire && 1 in After(2).probes && 5 in After(8).wire && 6 in After(8).wire
  {
    hide *;
    InSteps();
    AfterRests(1);
    AfterRests(2);
    AfterRests(8);
    TrackedAt(After(1), SnapAt(1));
    TrackedAt(After(2), SnapAt(2));
    SnapKeys();
    Sizes(After(8));
    WasSent(After(1), 0);
    WasSent(After(2), 1);
    WasSent(After(8), 5);
    WasSent(After(8), 6);
  }

  lemma TrackedAt(c: Conn, s: Snap)
    requires At(c, s)
    ensures c.pm.sent == s.sent
  {
  }

  lemma SnapKeys()
    ensures 0 in SnapAt(1).sent && !SnapAt(1).sent[0].probe && 1 in SnapAt(2).sent && SnapAt(2).sent[1].probe
  {
  }

  lemma Arriving(k: nat)
    requires k < 9 && InStep(k)
    ensures var w := EndToEnd.Run(WorldAt(k), Arrivals(k)); w.snd == After(k) && w.arrived == Arrived(k)
  {
    var w := WorldAt(k);
    OnTheWay();
    hide After, WorldAt, InStep, StepNo, EndToEnd.Delivered;
    assert w.snd == After(k) && w.arrived == Arrived(k - if k == 0 then 0 else 1) by { InStepIs(k); }
    if k == 1 {
      OneEvent(w, EndToEnd.DataArrives(0));
    } else if k == 2 {
      OneEvent(w, EndToEnd.ProbeArrives(1));
    } else if k == 8 {
      TwoEvents(w, EndToEnd.DataArrives(6), EndToEnd.DataArrives(5));
    } else {
      NoEvent(w);
    }
  }

  lemma InStepIs(k: nat)
    ensures InStep(k) <==> WorldAt(k).snd == After(k) && WorldAt(k).arrived == Arrived(k - if k == 0 then 0 else 1)
  {
    hide WorldAt, After, Arrived;
  }

  lemma Stepping(k: nat, w: EndToEnd.World)
    requires k < 9 && w.snd == After(k) && w.arrived == Arrived(k) && Possible(After(k), StepNo(k))
    ensures var w' := EndToEnd.Run(w, EventsOf(k)); w'.snd == Apply(After(k), StepNo(k)) && w'.arrived == Arrived(k)
  {
    var step := StepNo(k);
    hide After, StepNo, Arrived;
    match step
    case Acks(f, at, target) =>
      AllPrinted(k);
      AckRound(w, f, at, target);
      ApplyIs(After(k), step);
    case _ =>
      OneEvent(w, EndToEnd.Sender(step));
      hide Apply;
  }

  lemma WorldNext(k: nat)
    requires k < 9 && InStep(k) && Possible(After(k), StepNo(k))
    ensures InStep(k + 1)
  {
    hide *;
    Arriving(k);
    var w := EndToEnd.Run(WorldAt(k), Arrivals(k));
    Stepping(k, w);
    NextStep(k);
    WorldMore(k);
    InStepIs(k + 1);
  }

  lemma WorldMore(k: nat)
    ensures WorldAt(k + 1) == EndToEnd.Run(EndToEnd.Run(WorldAt(k), Arrivals(k)), EventsOf(k))
  {
    hide EndToEnd.Run, Arrivals, EventsOf;
    RunMore(EndToEnd.Start(MIN_HEADER), Events(k) + Arrivals(k), EventsOf(k));
    RunMore(EndToEnd.Start(MIN_HEADER), Events(k), Arrivals(k));
  }

  lemma {:induction false} WorldFollows(k: nat)
    requires k <= 9
    ensures InStep(k)
  {
    hide *;
    if k == 0 {
      AtStart();
    } else {
      WorldFollows(k - 1);
      AllPossible(k - 1);
      WorldNext(k - 1);
    }
  }

  lemma AtStart()
    ensures InStep(0)
  {
  }

  lemma AllPossible(k: nat)
    requires k < 9
    ensures Possible(After(k), StepNo(k))
  {
    hide *;
    InSteps();
    if k == 0 {
      Stage0(After(0));
    } else if k == 3 {
      Stage3(After(3));
    } else {
      NotAWrite(After(k), k);
    }
  }

  lemma AtTheEnd()
    ensures After(9) == Run(NewConn(MIN_HEADER), Steps(9))
    ensures WorldAt(9) == EndToEnd.Run(EndToEnd.Start(MIN_HEADER), Events(9))
  {
    hide Run, NewConn, Steps, EndToEnd.Run, Events;
  }

  /** The hypothesis of `NeverQuiet` cannot be dropped: a run of two peers, all of whose
      steps the code can take and all of whose ACKs the receiver prints, leaves the FIN
      outstanding with no timer set, the loss timer included. */
  lemma GoesQuiet()
    ensures var w := EndToEnd.Run(EndToEnd.Start(MIN_HEADER), Events(9));
            w.snd == Run(NewConn(MIN_HEADER), Steps(9)) && Quiet(w.snd) && w.snd.pm.lossTimer.None?
    ensures forall k :: 0 <= k < 9 ==> AsTheCode(After(k), StepNo(k))
    ensures forall k :: 0 <= k < 9 && StepNo(k).Acks? ==> Printed(StepNo(k).frame, Arrived(k))
  {
    hide *;
    AtTheEnd();
    WorldFollows(9);
    InStepIs(9);
    QuietAtEnd();
    AllAsTheCode();
    forall k | 0 <= k < 9 && StepNo(k).Acks? ensures Printed(StepNo(k).frame, Arrived(k)) { AllPrinted(k); }
  }
}
