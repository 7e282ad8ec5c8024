/** Loss recovery as a whole: what every step of the connection keeps. Data stays in
    custody, the bytes in flight are the bytes tracked, and recovery never goes quiet. */
module Recovery {
  import opened Frames
  import opened Packets
  import opened Sending
  import opened Custody
  import opened Spans
  import Congestion
  import PathMtu
  import Pacing
  import Streams

  // ----- The size of what is tracked -----

  function Weight(p: SentPacket): nat { if p.probe then 0 else p.size }

  /** Total size of the tracked packets that are not probes. */
  ghost function Total(sent: map<nat, SentPacket>): nat
    decreases |sent|
  {
    if sent == map[] then 0
    else
      var k :| k in sent;
      Weight(sent[k]) + Total(sent - {k})
  }

  lemma {:induction false} TotalMinus(sent: map<nat, SentPacket>, k: nat)
    requires k in sent
    ensures Total(sent) == Weight(sent[k]) + Total(sent - {k})
    decreases |sent|
  {
    var j :| j in sent && Total(sent) == Weight(sent[j]) + Total(sent - {j});
    if j != k {
      TotalMinus(sent - {j}, k);
      TotalMinus(sent - {k}, j);
      assert sent - {j} - {k} == sent - {k} - {j};
    }
  }

  lemma TotalPlus(sent: map<nat, SentPacket>, k: nat, p: SentPacket)
    requires k !in sent
    ensures Total(sent[k := p]) == Total(sent) + Weight(p)
  {
    TotalMinus(sent[k := p], k);
    assert sent[k := p] - {k} == sent;
  }

  /** What an ACK takes out of the map is what it returns. */
  lemma {:induction false} TakenSize(sent: map<nat, SentPacket>, seqs: seq<nat>)
    ensures Total(sent) == Total(TakeAll(sent, seqs).0) + DataSize(TakeAll(sent, seqs).1)
  {
    if seqs != [] {
      var init := seqs[..|seqs| - 1];
      TakenSize(sent, init);
      var (rest, acked) := TakeAll(sent, init);
      var s := seqs[|seqs| - 1];
      if s in rest {
        TotalMinus(rest, s);
        var p := rest[s].(isAcked := true);
        assert (acked + [p])[..|acked|] == acked;
      }
    }
  }

  lemma {:induction false} DataSizeConcat(a: seq<SentPacket>, b: seq<SentPacket>)
    ensures DataSize(a + b) == DataSize(a) + DataSize(b)
  {
    if b == [] {
      assert a + b == a;
    } else {
      assert (a + b)[..|a + b| - 1] == a + b[..|b| - 1];
      DataSizeConcat(a, b[..|b| - 1]);
    }
  }

  lemma {:induction false} DataOnlySize(ps: seq<SentPacket>)
    ensures DataSize(DataOnly(ps)) == DataSize(ps)
  {
    if ps != [] {
      var init, p := DataOnly(ps[..|ps| - 1]), ps[|ps| - 1];
      DataOnlySize(ps[..|ps| - 1]);
      DataSizeConcat(init, [p]);
      assert DataSize([p]) == DataSize([p][..0]) + Weight(p);
      assert init + [] == init;
    }
  }

  lemma {:induction false} DataOnlyMembers(ps: seq<SentPacket>)
    ensures forall p :: p in DataOnly(ps) <==> p in ps && !p.probe
    ensures Ascending(ps) ==> Ascending(DataOnly(ps))
  {
    if ps != [] {
      var init, p := ps[..|ps| - 1], ps[|ps| - 1];
      DataOnlyMembers(init);
      assert forall x :: x in ps <==> x in init || x == p;
      if Ascending(ps) {
        assert Ascending(init);
        LastIsLargest(ps);
        assert DataOnly(ps) == DataOnly(init) + (if p.probe then [] else [p]);
        hide DataOnly;
        AppendAscending(DataOnly(init), p);
        assert p.probe ==> DataOnly(ps) == DataOnly(init);
      }
    }
  }

  lemma LastIsLargest(ps: seq<SentPacket>)
    requires ps != [] && Ascending(ps)
    ensures forall x <- ps[..|ps| - 1] :: x.sequence < ps[|ps| - 1].sequence
  {
    forall x | x in ps[..|ps| - 1] ensures x.sequence < ps[|ps| - 1].sequence {
      var i :| 0 <= i < |ps| - 1 && ps[..|ps| - 1][i] == x;
      assert ps[i] == x;
    }
  }

  lemma AppendAscending(ps: seq<SentPacket>, p: SentPacket)
    requires Ascending(ps) && forall x <- ps :: x.sequence < p.sequence
    ensures Ascending(ps + [p])
  {
    assert forall i :: 0 <= i < |ps| ==> ps[i] in ps;
  }

  /** ...and likewise what loss detection takes out. */
  lemma {:induction false} LostSize(sent: map<nat, SentPacket>, keys: set<nat>)
    requires keys <= sent.Keys
    ensures Total(sent) == Total(sent - keys) + DataSize(InOrder(sent, keys))
    decreases |keys|
  {
    if keys == {} {
      assert sent - keys == sent;
    } else {
      var k := Least(keys);
      LostSize(sent, keys - {k});
      TotalMinus(sent - (keys - {k}), k);
      assert sent - (keys - {k}) - {k} == sent - keys;
      var rest := InOrder(sent, keys - {k});
      DataSizeConcat([sent[k]], rest);
      assert DataSize([sent[k]]) == DataSize([sent[k]][..0]) + Weight(sent[k]);
    }
  }

  // ----- The single steps -----

  predicate SizesOk(m: PathMtu.Search) {
    SAFE_DATAGRAM_SIZE <= m.current <= MAX_DATAGRAM_SIZE && m.probe <= MAX_DATAGRAM_SIZE
      && m.lowFailed <= MAX_DATAGRAM_SIZE + 1
  }

  /** Custody of the data with `pool` waiting, sizes the path can carry, and a window
      of at least the minimum. */
  ghost predicate Sound(c: Conn, pool: seq<SentPacket>) {
    && Headers(c.hdr) && SizesOk(c.mtu) && c.cc.cwnd >= MIN_CWND
    && InCustody(ViewOf(c), pool)
  }

  /** The bytes in flight are the bytes tracked, plus `pending` on its way back into
      tracking, but for headers that probe timeouts added without booking them. */
  ghost predicate Conserved(c: Conn, pending: nat) {
    c.cc.inflight <= Total(c.pm.sent) + pending <= c.cc.inflight + c.log.unbooked
  }

  /** A step that leaves everything but tracking and the wire alone. */
  predicate OnlyTracking(c: Conn, c': Conn) {
    c'.hdr == c.hdr && c'.cc == c.cc && c'.mtu == c.mtu && c'.queue == c.queue && c'.lostTimer == c.lostTimer
      && c'.log.unbooked == c.log.unbooked
  }

  lemma RetransmitPooled(c: Conn, p: SentPacket, rest: seq<SentPacket>, now: int)
    requires Sound(c, [p] + rest)
    ensures Retransmit(c, p, now).Some?
    ensures var c' := Retransmit(c, p, now).value;
            && Sound(c', rest) && OnlyTracking(c, c') && Total(c'.pm.sent) == Total(c.pm.sent) + p.size
            && Onward(ViewOf(c), ViewOf(c')) && StillTracked(c.pm.sent, c'.pm.sent, {})
  {
    hide *;
    SoundParts(c, [p] + rest);
    ViewParts(c);
    PooledFresh(c, p, rest);
    RetransmitFresh(c, p, now);
    var c' := Retransmit(c, p, now).value;
    ResendFromPool(ViewOf(c), ViewOf(c'), p, rest, now);
    OnwardResend(ViewOf(c), ViewOf(c'), [p] + rest, p, c.pm.sent, now);
    SoundFrom(c, c', [p] + rest, rest);
    TotalPlus(c.pm.sent, c.pm.nextSeq, p.(sequence := c.pm.nextSeq, sentTime := now));
    SameWeight(p, c.pm.nextSeq, now);
  }

  /** Re-sending a packet that is not tracked adds it under the next sequence. */
  lemma RetransmitFresh(c: Conn, p: SentPacket, now: int)
    requires IsData(p) && !p.isAcked && Drop(c.pm, p) == c.pm && c.pm.nextSeq !in c.pm.sent
    ensures Retransmit(c, p, now).Some?
    ensures var c' := Retransmit(c, p, now).value;
            && Resends(ViewOf(c), ViewOf(c'), p, c.pm.sent, now) && OnlyTracking(c, c')
            && c'.pm.sent == c.pm.sent[c.pm.nextSeq := p.(sequence := c.pm.nextSeq, sentTime := now)]
            && StillTracked(c.pm.sent, c'.pm.sent, {}) && Weight(p) == p.size
  {
  }

  lemma TrackedLive(v: View, s: nat)
    requires TrackedOk(v) && s in v.sent && !v.sent[s].probe
    ensures Live(v, v.sent[s]) && IsData(v.sent[s]) && !v.sent[s].isAcked
    ensures forall t <- v.sent :: v.sent[t].ref == v.sent[s].ref ==> t == s
  {
    assert Entry(v, s);
    forall t | t in v.sent && v.sent[t].ref == v.sent[s].ref ensures t == s { assert OneEntry(v.sent, t, s); }
  }

  lemma NextFree(sent: map<nat, SentPacket>, n: nat)
    requires KeyedIn(sent, n)
    ensures n !in sent
  {
  }

  lemma RetransmitTracked(c: Conn, p: SentPacket, pool: seq<SentPacket>, now: int)
    requires Sound(c, pool) && p.sequence in c.pm.sent && c.pm.sent[p.sequence] == p && !p.probe
    ensures Retransmit(c, p, now).Some?
    ensures var c' := Retransmit(c, p, now).value;
            && Sound(c', pool) && OnlyTracking(c, c') && Total(c'.pm.sent) == Total(c.pm.sent)
            && Onward(ViewOf(c), ViewOf(c')) && StillTracked(c.pm.sent, c'.pm.sent, {p.sequence})
  {
    SoundParts(c, pool);
    hide *;
    TrackedLive(ViewOf(c), p.sequence);
    NextFree(c.pm.sent, c.pm.nextSeq);
    RetransmitIs(c, p, now);
    var c', base := Retransmit(c, p, now).value, c.pm.sent - {p.sequence};
    ResendFromMap(ViewOf(c), ViewOf(c'), pool, p, now);
    OnwardResend(ViewOf(c), ViewOf(c'), pool, p, base, now);
    SoundFrom(c, c', pool, pool);
    TotalMinus(c.pm.sent, p.sequence);
    TotalPlus(base, c.pm.nextSeq, p.(sequence := c.pm.nextSeq, sentTime := now));
    SameWeight(p, c.pm.nextSeq, now);
  }

  lemma SoundParts(c: Conn, pool: seq<SentPacket>)
    requires Sound(c, pool)
    ensures InCustody(ViewOf(c), pool) && TrackedOk(ViewOf(c)) && KeyedIn(c.pm.sent, c.pm.nextSeq)
  {
  }

  lemma SoundFrom(c: Conn, c': Conn, pool: seq<SentPacket>, pool': seq<SentPacket>)
    requires Sound(c, pool) && OnlyTracking(c, c') && InCustody(ViewOf(c'), pool')
    ensures Sound(c', pool')
  {
    hide InCustody;
  }

  lemma SameWeight(p: SentPacket, s: nat, now: int)
    ensures Weight(p.(sequence := s, sentTime := now)) == Weight(p)
  {
  }

  /** Re-sending a tracked packet moves it to the next sequence. */
  lemma RetransmitIs(c: Conn, p: SentPacket, now: int)
    requires IsData(p) && !p.isAcked && c.pm.nextSeq !in c.pm.sent
    requires p.sequence in c.pm.sent && c.pm.sent[p.sequence] == p
    ensures Retransmit(c, p, now).Some?
    ensures var c', base := Retransmit(c, p, now).value, c.pm.sent - {p.sequence};
            && Resends(ViewOf(c), ViewOf(c'), p, base, now) && OnlyTracking(c, c') && base.Keys <= c.pm.sent.Keys
            && c'.pm.sent == base[c.pm.nextSeq := p.(sequence := c.pm.nextSeq, sentTime := now)]
            && StillTracked(c.pm.sent, c'.pm.sent, {p.sequence})
  {
  }

  /** `p` is out of the way of its pieces: `base` and `others` are what else is
      tracked and pooled. */
  ghost predicate Apart(v: View, p: SentPacket, pool: seq<SentPacket>, base: map<nat, SentPacket>,
                        others: seq<SentPacket>) {
    && InCustody(v, pool) && Live(v, p) && AllBut(v.sent, base, p)
    && PoolOk(v, others) && p.ref !in DataRefs(others) && p.ref !in TrackedRefs(base)
    && TrackedRefs(base) + DataRefs(others) + {p.ref} == TrackedRefs(v.sent) + DataRefs(pool)
  }

  lemma PooledApart(v: View, p: SentPacket, rest: seq<SentPacket>)
    requires InCustody(v, [p] + rest)
    ensures Apart(v, p, [p] + rest, v.sent, rest)
  {
    assert ([p] + rest)[0] in [p] + rest;
    assert p.ref in DataRefs([p] + rest);
    PoolTail(v, p, rest);
    hide WireOk, Complete, FrameOk, KeyedIn;
  }

  lemma TrackedApart(v: View, p: SentPacket, pool: seq<SentPacket>)
    requires InCustody(v, pool) && p.sequence in v.sent && v.sent[p.sequence] == p && !p.probe
    ensures Apart(v, p, pool, v.sent - {p.sequence}, pool)
  {
    hide WireOk, Complete, FrameOk;
    TrackedLive(v, p.sequence);
    hide TrackedOk, Live;
    RefsMinus(v.sent, p.sequence);
    assert p.ref in TrackedRefs(v.sent);
  }

  /** A record gives way to its pieces. */
  lemma SplitApart(c: Conn, p: SentPacket, pool: seq<SentPacket>, base: map<nat, SentPacket>, others: seq<SentPacket>)
    requires Sound(c, pool) && MustSplit(c, p) && Apart(ViewOf(c), p, pool, base, others) && Drop(c.pm, p).sent == base
    ensures var c' := Split(c, p);
            && Sound(c', Pieces(c, p) + others) && OnlyTracking(c, c') && c'.pm.sent == base
            && Onward(ViewOf(c), ViewOf(c'))
  {
    hide InCustody, PieceSpans, PieceFrames, Pieces, Live, MustSplit, AllBut, PoolOk, DataRefs, TrackedRefs, Onward;
    assert Splits(c, ViewOf(Split(c, p)), p, base);
    OnwardSplit(c, ViewOf(Split(c, p)), p, base);
    SplitKeeps(c, ViewOf(Split(c, p)), p, base, pool, others);
  }

  lemma SplitPooled(c: Conn, p: SentPacket, rest: seq<SentPacket>)
    requires Sound(c, [p] + rest) && MustSplit(c, p)
    ensures var c' := Split(c, p);
            && Sound(c', Pieces(c, p) + rest) && OnlyTracking(c, c') && c'.pm.sent == c.pm.sent
            && Onward(ViewOf(c), ViewOf(c'))
  {
    PooledApart(ViewOf(c), p, rest);
    assert Drop(c.pm, p) == c.pm by { assert p.ref in DataRefs([p] + rest); }
    hide *;
    SplitApart(c, p, [p] + rest, c.pm.sent, rest);
  }

  lemma SplitTracked(c: Conn, p: SentPacket, pool: seq<SentPacket>)
    requires Sound(c, pool) && MustSplit(c, p) && p.sequence in c.pm.sent && c.pm.sent[p.sequence] == p && !p.probe
    ensures var c' := Split(c, p);
            && Sound(c', Pieces(c, p) + pool) && OnlyTracking(c, c')
            && Total(c.pm.sent) == Total(c'.pm.sent) + p.size && Onward(ViewOf(c), ViewOf(c'))
  {
    var base := c.pm.sent - {p.sequence};
    TrackedApart(ViewOf(c), p, pool);
    TotalMinus(c.pm.sent, p.sequence);
    assert Weight(p) == p.size && Drop(c.pm, p).sent == base;
    hide *;
    SplitApart(c, p, pool, base, pool);
  }

  lemma {:induction false} UniformSize(ps: seq<SentPacket>, fs: seq<StreamFrame>, header: nat, lo: nat, hi: nat)
    requires |ps| == |fs| && Streams.Chain(fs, lo, hi) && fs != []
    requires forall i :: 0 <= i < |ps| ==> !ps[i].probe && ps[i].size == header + |fs[i].data|
    ensures DataSize(ps) == header + (hi - lo) + ExtraHeaders(|ps| - 1, header)
  {
    var n := |ps| - 1;
    if n == 0 {
      assert DataSize(ps) == DataSize(ps[..0]) + ps[0].size;
    } else {
      UniformSize(ps[..n], fs[..n], header, lo, fs[n].offset);
      assert DataSize(ps) == DataSize(ps[..n]) + ps[n].size;
    }
  }

  /** Re-chunking adds one header per extra piece, and nothing else. */
  lemma PiecesSize(c: Conn, p: SentPacket)
    requires MustSplit(c, p) && p.size == PacketSize(c, FrameOf(p))
    ensures |Pieces(c, p)| > 1
    ensures DataSize(Pieces(c, p)) == p.size + ExtraHeaders(|Pieces(c, p)| - 1, c.hdr + STREAM_FRAME_HEADER)
  {
    var f := FrameOf(p);
    Streams.ChunksCut(f.offset, f.data, PieceSize(c), f.isSyn, f.isFin);
    hide Streams.Chunks, Streams.Chain, Streams.Flagged, Streams.Slice, DataSize, ExtraHeaders;
    PiecesFit(c, p);
    UniformSize(Pieces(c, p), PieceFrames(c, p), c.hdr + STREAM_FRAME_HEADER, f.offset, f.End());
  }

  // ----- Draining the queue -----

  /** At rest nothing can wait for ever: bytes in flight have the probe timer, and
      queued packets the pacer's timer or bytes in flight. */
  predicate PtoArmed(c: Conn) { c.cc.inflight > 0 ==> c.cc.ptoTimer.Some? }

  predicate QueueServed(c: Conn) {
    (c.queue != [] ==> c.lostTimer.Some? || c.cc.inflight > 0) && (c.lostTimer.Some? ==> c.queue != [])
  }

  /** What every step keeps, but for the queue's timer while the queue is drained. */
  ghost predicate Steady(c: Conn) {
    Sound(c, c.queue) && Conserved(c, 0) && PtoArmed(c)
  }

  lemma BookedSteady(c: Conn, size: nat, now: int)
    requires Sound(c, c.queue) && c.cc.inflight + size <= Total(c.pm.sent) <= c.cc.inflight + size + c.log.unbooked
    ensures Steady(Booked(c, size, now)) && ViewOf(Booked(c, size, now)) == ViewOf(c)
  {
    hide InCustody, Total, Congestion.NextPto, Pacing.OnSent;
    assert ViewOf(Booked(c, size, now)) == ViewOf(c);
  }

  /** One packet from the head of the queue, with window and pacer to spare. */
  lemma SendHeadSteady(c: Conn, p: SentPacket, rest: seq<SentPacket>, now: int)
    requires Steady(c) && c.queue == [p] + rest
    ensures Retransmit(c.(queue := rest), p, now).Some?
    ensures var c' := Booked(Retransmit(c.(queue := rest), p, now).value, p.size, now);
            && Steady(c') && Onward(ViewOf(c), ViewOf(c')) && c'.cc.ptoTimer.Some?
            && c'.queue == rest && c'.mtu == c.mtu && c'.log.unbooked == c.log.unbooked && c'.lostTimer == c.lostTimer
  {
    hide InCustody, Total, Onward;
    var c0 := c.(queue := rest);
    assert ViewOf(c0) == ViewOf(c);
    RetransmitPooled(c0, p, rest, now);
    BookedSteady(Retransmit(c0, p, now).value, p.size, now);
    SentController(Retransmit(c0, p, now).value.cc, p.size, now);
    hide Congestion.OnPacketSent, Pacing.OnSent, Retransmit;
  }

  lemma SplitHeadSteady(c: Conn, p: SentPacket, rest: seq<SentPacket>)
    requires Steady(c) && c.queue == [p] + rest && MustSplit(c, p)
    ensures var c' := Split(c, p).(queue := Pieces(c, p) + rest);
            && Steady(c') && Onward(ViewOf(c), ViewOf(c')) && c'.mtu == c.mtu && c'.log.unbooked == c.log.unbooked
            && c'.lostTimer == c.lostTimer
  {
    hide InCustody, Total, Pieces, Onward;
    SplitPooled(c, p, rest);
    assert ViewOf(Split(c, p).(queue := Pieces(c, p) + rest)) == ViewOf(Split(c, p));
  }

  /** The queue's records are live: not acknowledged, and of a size the window's floor
      can take. */
  lemma HeadLive(c: Conn)
    requires Steady(c) && c.queue != []
    ensures !c.queue[0].isAcked && c.queue[0].size <= MAX_DATAGRAM_SIZE
  {
    assert c.queue[0] in c.queue;
  }

  /** Draining the queue keeps everything, and leaves it only for the pacer's timer or
      a window that is full, which means bytes are in flight. */
  lemma {:induction false} FlushSteady(c: Conn, now: int)
    requires Steady(c) && c.lostTimer.None?
    ensures Steady(Flush(c, now)) && QueueServed(Flush(c, now))
    ensures Flush(c, now).log.unbooked == c.log.unbooked && Onward(ViewOf(c), ViewOf(Flush(c, now)))
    decreases Oversized(c.queue, c.mtu.current), |c.queue|
  {
    OnwardRefl(ViewOf(c));
    hide Onward, Steady, Split, Pieces, MustSplit, Retransmit, Booked, Congestion.CanSend, Pacing.TimeUntilSend;
    if c.queue != [] {
      var p, rest := c.queue[0], c.queue[1..];
      assert c.queue == [p] + rest;
      HeadLive(c);
      if MustSplit(c, p) {
        SplitShrinks(c, p, rest);
        SplitHeadSteady(c, p, rest);
        var c1 := Split(c, p).(queue := Pieces(c, p) + rest);
        FlushSteady(c1, now);
        OnwardTrans(ViewOf(c), ViewOf(c1), ViewOf(Flush(c1, now)));
      } else if Pacing.TimeUntilSend(c.cc.pacer, now) > 0 {
        LaterSteady(c, now + Pacing.TimeUntilSend(c.cc.pacer, now));
      } else if !Congestion.CanSend(c.cc, p.size) {
        WindowFull(c);
      } else {
        SendHeadSteady(c, p, rest, now);
        var c1 := Booked(Retransmit(c.(queue := rest), p, now).value, p.size, now);
        FlushSteady(c1, now);
        OnwardTrans(ViewOf(c), ViewOf(c1), ViewOf(Flush(c1, now)));
      }
    }
  }

  lemma LaterSteady(c: Conn, at: int)
    requires Steady(c)
    ensures var c' := c.(lostTimer := Some(at)); Steady(c') && ViewOf(c') == ViewOf(c)
  {
    hide InCustody, Total;
    assert ViewOf(c.(lostTimer := Some(at))) == ViewOf(c);
  }

  /** A window too full for one more packet has bytes in flight: it is never smaller than
      two datagrams. */
  lemma WindowFull(c: Conn)
    requires Steady(c) && c.queue != [] && !Congestion.CanSend(c.cc, c.queue[0].size)
    ensures c.cc.inflight > 0 && c.cc.ptoTimer.Some?
  {
    HeadLive(c);
    hide InCustody, Total;
  }

  /** A timer is set that will make the connection send again. */
  predicate Awake(c: Conn) { c.cc.ptoTimer.Some? || c.lostTimer.Some? }

  /** A queue with anything in it is never left without a timer. */
  lemma {:induction false} FlushWakes(c: Conn, now: int)
    requires Steady(c) && (c.queue != [] || c.cc.ptoTimer.Some?)
    ensures var c' := Flush(c, now); Awake(c') && (c'.queue != [] || c'.cc.ptoTimer.Some?)
    decreases Oversized(c.queue, c.mtu.current), |c.queue|
  {
    hide Steady, Split, Pieces, MustSplit, Retransmit, Booked, Congestion.CanSend, Pacing.TimeUntilSend;
    if c.queue != [] {
      var p, rest := c.queue[0], c.queue[1..];
      assert c.queue == [p] + rest;
      HeadLive(c);
      if MustSplit(c, p) {
        SplitShrinks(c, p, rest);
        SplitHeadSteady(c, p, rest);
        PiecesFit(c, p);
        FlushWakes(Split(c, p).(queue := Pieces(c, p) + rest), now);
      } else if Pacing.TimeUntilSend(c.cc.pacer, now) <= 0 {
        if Congestion.CanSend(c.cc, p.size) {
          SendHeadSteady(c, p, rest, now);
          FlushWakes(Booked(Retransmit(c.(queue := rest), p, now).value, p.size, now), now);
        } else {
          WindowFull(c);
        }
      }
    }
  }

  // ----- Sending new data -----

  /** The step leaves the queue and its timer alone and takes nothing out of flight. */
  predicate QueueAlone(c: Conn, c': Conn) {
    c'.queue == c.queue && c'.lostTimer == c.lostTimer && c'.cc.inflight >= c.cc.inflight
      && c'.hdr == c.hdr && c'.mtu == c.mtu && c'.log.unbooked == c.log.unbooked && c'.log.finished == c.log.finished
  }

  lemma SendSteady(c: Conn, stream: nat, f: StreamFrame, paced: bool, now: int)
    requires Steady(c) && Continues(c.log, stream, f) && PacketSize(c, f) <= MAX_DATAGRAM_SIZE
    ensures var c' := SendData(c, stream, f, paced, now);
            && Steady(c') && QueueAlone(c, c') && Onward(ViewOf(c), ViewOf(c'))
            && Written(c', stream) == Written(c, stream) + f.data
  {
    hide *;
    var c' := SendData(c, stream, f, paced, now);
    var p := SentPacket(c.nextRef, c.pm.nextSeq, now, PacketSize(c, f), false, [Stream(f)], stream, false);
    SteadyParts(c);
    SoundParts(c, c.queue);
    SendDataIs(c, stream, f, paced, now);
    SendKeeps(c, c.queue, stream, f, paced, now);
    OnwardSend(ViewOf(c), ViewOf(c'), c.queue, stream, f, p);
    NextFree(c.pm.sent, c.pm.nextSeq);
    TotalPlus(c.pm.sent, c.pm.nextSeq, p);
    SentSteady(c, c', PacketSize(c, f));
  }

  lemma SendDataIs(c: Conn, stream: nat, f: StreamFrame, paced: bool, now: int)
    ensures var c' := SendData(c, stream, f, paced, now);
            var p := SentPacket(c.nextRef, c.pm.nextSeq, now, PacketSize(c, f), false, [Stream(f)], stream, false);
            && (PacketSize(c, f) <= MAX_DATAGRAM_SIZE ==> Sends(ViewOf(c), ViewOf(c'), stream, f, p))
            && c'.pm.sent == c.pm.sent[c.pm.nextSeq := p] && Weight(p) == PacketSize(c, f) && QueueAlone(c, c')
            && c'.cc.inflight == c.cc.inflight + PacketSize(c, f) && c'.cc.ptoTimer.Some? && c'.cc.cwnd == c.cc.cwnd
            && Written(c', stream) == Written(c, stream) + f.data && ViewOf(c).log == c.log
  {
    SentController(c.cc, PacketSize(c, f), now);
    hide Congestion.OnPacketSent, Pacing.OnSent, FrameLen;
  }

  lemma SentSteady(c: Conn, c': Conn, size: nat)
    requires Steady(c) && QueueAlone(c, c') && InCustody(ViewOf(c'), c.queue)
    requires Total(c'.pm.sent) == Total(c.pm.sent) + size && c'.cc.inflight == c.cc.inflight + size
    requires c'.cc.ptoTimer.Some? && c'.cc.cwnd == c.cc.cwnd
    ensures Steady(c')
  {
    hide InCustody, Total;
  }

  lemma SentController(cc: Congestion.Controller, size: nat, now: int)
    ensures var cc' := Congestion.OnPacketSent(cc, size, now);
            cc'.inflight == cc.inflight + size && cc'.ptoTimer.Some? && cc'.cwnd == cc.cwnd
  {
    hide Congestion.NextPto;
  }

  lemma {:induction false} SendAllSteady(c: Conn, stream: nat, fs: seq<StreamFrame>, hi: nat, size: nat, now: int)
    requires Steady(c) && stream !in c.log.finished && c.hdr + STREAM_FRAME_HEADER + size <= MAX_DATAGRAM_SIZE
    requires Streams.Chain(fs, |Written(c, stream)|, hi)
    requires forall f <- fs :: |f.data| <= size && !f.isFin
    ensures var c' := SendAll(c, stream, fs, now);
            Steady(c') && QueueAlone(c, c') && |Written(c', stream)| == hi && Onward(ViewOf(c), ViewOf(c'))
  {
    OnwardRefl(ViewOf(c));
    hide Onward;
    hide Steady, SendData, Written;
    if fs != [] {
      var init, f := fs[..|fs| - 1], fs[|fs| - 1];
      SendAllSteady(c, stream, init, f.offset, size, now);
      assert f in fs;
      var c1 := SendAll(c, stream, init, now);
      NextFrame(c1, stream, f);
      SendSteady(c1, stream, f, true, now);
      OnwardTrans(ViewOf(c), ViewOf(c1), ViewOf(SendData(c1, stream, f, true, now)));
    }
  }

  lemma NextFrame(c: Conn, stream: nat, f: StreamFrame)
    requires stream !in c.log.finished && f.offset == |Written(c, stream)| && !f.isFin
    ensures Continues(c.log, stream, f) && PacketSize(c, f) == c.hdr + STREAM_FRAME_HEADER + |f.data|
  {
  }

  /** A batch of a Write keeps everything. */
  lemma WriteSteady(c: Conn, stream: nat, data: seq<byte>, chunk: nat, isSyn: bool, now: int)
    requires Steady(c) && stream !in c.log.finished && 0 < chunk <= MAX_DATAGRAM_SIZE - STREAM_CHUNK_OVERHEAD
    ensures var c' := Write(c, stream, data, chunk, isSyn, now);
            Steady(c') && QueueAlone(c, c') && Onward(ViewOf(c), ViewOf(c'))
  {
    var w := Written(c, stream);
    Streams.ChunksCut(|w|, data, chunk, isSyn, false);
    var fs := Streams.Chunks(|w|, data, chunk, isSyn, false);
    hide InCustody, Onward;
    forall f | f in fs ensures |f.data| <= chunk && !f.isFin {
      var i :| 0 <= i < |fs| && fs[i] == f;
    }
    SendAllSteady(c, stream, fs, |w| + |data|, chunk, now);
  }

  lemma FinishSteady(c: Conn, stream: nat, now: int)
    requires Steady(c)
    ensures var c' := Finish(c, stream, now);
            && Steady(c') && c'.queue == c.queue && c'.lostTimer == c.lostTimer && c'.cc.inflight >= c.cc.inflight
            && c'.log.unbooked == c.log.unbooked && c'.hdr == c.hdr && Onward(ViewOf(c), ViewOf(c'))
            && c'.log.finished == c.log.finished + {stream}
  {
    var c1 := c.(log := c.log.(finished := c.log.finished + {stream}));
    FinishedMore(ViewOf(c), ViewOf(c1), c.queue, stream);
    hide InCustody, Onward;
    var f := StreamFrame(true, false, |Written(c, stream)|, []);
    SendSteady(c1, stream, f, false, now);
    OnwardTrans(ViewOf(c), ViewOf(c1), ViewOf(SendData(c1, stream, f, false, now)));
  }

  lemma FinishedMore(v: View, v': View, pool: seq<SentPacket>, stream: nat)
    requires InCustody(v, pool) && v' == v.(log := v.log.(finished := v.log.finished + {stream}))
    ensures InCustody(v', pool) && Onward(v, v')
  {
    assert forall t, g :: FrameOk(v.log, t, g) ==> FrameOk(v'.log, t, g);
    hide FrameOk;
    FinishedGrows(v, v', stream);
    hide Onward;
    WireKept(v, v');
    hide WireOk, Complete;
    TrackedSub(v, v');
    PoolKept(v, v', pool);
  }

  lemma FinishedGrows(v: View, v': View, stream: nat)
    requires v' == v.(log := v.log.(finished := v.log.finished + {stream}))
    ensures Onward(v, v')
  {
  }

  // ----- Acknowledgement -----

  /** Every tracked or returned packet is of a size the search can work with. */
  ghost predicate SmallEnough(ps: seq<SentPacket>) {
    forall p <- ps :: p.size <= MAX_DATAGRAM_SIZE
  }

  lemma {:induction false} AckSizesOk(m: PathMtu.Search, acked: seq<SentPacket>)
    requires SizesOk(m) && SmallEnough(acked)
    ensures SizesOk(MtuAfterAck(m, acked))
  {
    if acked != [] {
      AckSizesOk(m, acked[..|acked| - 1]);
      assert acked[|acked| - 1] in acked;
    }
  }

  lemma {:induction false} LossSizesOk(m: PathMtu.Search, lost: seq<SentPacket>, countLarge: bool, now: int)
    requires SizesOk(m) && SmallEnough(lost)
    ensures SizesOk(MtuAfterLoss(m, lost, countLarge, now))
  {
    if lost != [] {
      LossSizesOk(m, lost[..|lost| - 1], countLarge, now);
      assert lost[|lost| - 1] in lost;
    }
  }

  lemma EntrySize(v: View, s: nat)
    requires TrackedOk(v) && s in v.sent
    ensures v.sent[s].size <= MAX_DATAGRAM_SIZE
  {
    assert Entry(v, s);
  }

  lemma AckView(c: Conn, f: AckFrame, now: int)
    requires Sound(c, c.queue)
    ensures var (pm, acked) := HandleAck(c.pm, f, now);
            && acked != [] ==>
            && SmallEnough(acked) && Total(c.pm.sent) == Total(pm.sent) + DataSize(acked)
            && pm.sent.Keys <= c.pm.sent.Keys
            && InCustody(ViewOf(c).(sent := pm.sent, largestAcked := pm.largestAcked,
                                    log := c.log.(acked := c.log.acked + DataRefs(acked))), c.queue)
  {
    hide *;
    var (pm, acked) := HandleAck(c.pm, f, now);
    if acked != [] {
      var seqs := Expand(f);
      var keys := set s | s in seqs;
      SoundParts(c, c.queue);
      ViewParts(c);
      TakeAllIsExact(c.pm.sent, seqs);
      TakenSize(c.pm.sent, seqs);
      HandleAckTakes(c.pm, f, now);
      AckedSmall(c, seqs, acked);
      assert pm.sent == c.pm.sent - keys;
      AckedRefs(c.pm.sent, seqs, acked, keys);
      var v' := ViewOf(c).(sent := pm.sent, largestAcked := pm.largestAcked,
                           log := c.log.(acked := c.log.acked + DataRefs(acked)));
      AckedLeave(ViewOf(c), v', c.queue, keys);
    }
  }

  lemma ViewParts(c: Conn)
    ensures ViewOf(c).sent == c.pm.sent && ViewOf(c).log == c.log
  {
  }

  lemma HandleAckTakes(m: Manager, f: AckFrame, now: int)
    ensures var (m', acked) := HandleAck(m, f, now);
            acked != [] ==> (m'.sent, acked) == TakeAll(m.sent, Expand(f))
  {
    hide TakeAll, Expand;
  }

  lemma AckedSmall(c: Conn, seqs: seq<nat>, acked: seq<SentPacket>)
    requires Sound(c, c.queue)
    requires forall p <- acked :: exists s :: s in c.pm.sent && s in seqs && p == c.pm.sent[s].(isAcked := true)
    ensures SmallEnough(acked)
  {
    forall p | p in acked ensures p.size <= MAX_DATAGRAM_SIZE {
      var s :| s in c.pm.sent && s in seqs && p == c.pm.sent[s].(isAcked := true);
      EntrySize(ViewOf(c), s);
    }
  }

  lemma AckedRefs(sent: map<nat, SentPacket>, seqs: seq<nat>, acked: seq<SentPacket>, keys: set<nat>)
    requires forall s :: s in keys <==> s in seqs
    requires forall p <- acked :: exists s :: s in sent && s in seqs && p == sent[s].(isAcked := true)
    requires forall s :: s in sent && s in seqs ==> sent[s].(isAcked := true) in acked
    ensures DataRefs(acked) == RefsAt(sent, keys)
  {
    forall r | r in DataRefs(acked) ensures r in RefsAt(sent, keys) {
      var p :| p in acked && !p.probe && p.ref == r;
      var s :| s in sent && s in seqs && p == sent[s].(isAcked := true);
      assert s in keys;
    }
    forall r | r in RefsAt(sent, keys) ensures r in DataRefs(acked) {
      var s :| s in sent && s in keys && !sent[s].probe && sent[s].ref == r;
      assert sent[s].(isAcked := true) in acked;
    }
  }

  /** Booking an ACK: what it takes out of tracking it takes out of flight. */
  lemma AckSteady(c: Conn, f: AckFrame, now: int, target: int)
    requires Steady(c) && HandleAck(c.pm, f, now).1 != []
    ensures var (pm, acked) := HandleAck(c.pm, f, now);
            var c' := AckBooked(c.(pm := pm), f, acked, now, target);
            && Steady(c') && c'.log.unbooked == c.log.unbooked && Grows(ViewOf(c), ViewOf(c'))
            && c'.log.acked == c.log.acked + DataRefs(acked)
  {
    var (pm, acked) := HandleAck(c.pm, f, now);
    var c' := AckBooked(c.(pm := pm), f, acked, now, target);
    SteadyParts(c);
    hide *;
    AckView(c, f, now);
    AckSizesOk(c.mtu, acked);
    AckBookedIs(c, pm, f, acked, now, target);
    HandleAckKeeps(c.pm, f, now);
    OnwardSent(ViewOf(c), ViewOf(c'));
    AckedController(c.cc, DataSize(acked), LargestSample(acked, f.largestAcked),
                    f.ackDelay * MILLISECOND, f.largestAcked, now, target);
    AckedSteady(c, c', DataSize(acked));
  }

  lemma AckBookedIs(c: Conn, pm: Manager, f: AckFrame, acked: seq<SentPacket>, now: int, target: int)
    requires pm.nextSeq == c.pm.nextSeq && pm.lastSentSeq == c.pm.lastSentSeq && pm.lossTimer == c.pm.lossTimer
    ensures var c' := AckBooked(c.(pm := pm), f, acked, now, target);
            && c'.pm == pm && c'.hdr == c.hdr && c'.queue == c.queue
            && c'.log == c.log.(acked := c.log.acked + DataRefs(acked))
            && c'.mtu == MtuAfterAck(c.mtu, acked)
            && c'.cc == Congestion.OnPacketAcked(c.cc, DataSize(acked), LargestSample(acked, f.largestAcked),
                                                 f.ackDelay * MILLISECOND, f.largestAcked, now, target)
            && ViewOf(c') == ViewOf(c).(sent := pm.sent, largestAcked := pm.largestAcked,
                                        log := c.log.(acked := c.log.acked + DataRefs(acked)))
  {
    hide DataRefs, MtuAfterAck, DataSize, LargestSample, Congestion.OnPacketAcked;
  }

  lemma HandleAckKeeps(m: Manager, f: AckFrame, now: int)
    ensures var m' := HandleAck(m, f, now).0;
            m'.nextSeq == m.nextSeq && m'.lastSentSeq == m.lastSentSeq && m'.lossTimer == m.lossTimer
  {
    hide TakeAll, Expand;
  }

  lemma AckedSteady(c: Conn, c': Conn, bytes: nat)
    requires Steady(c) && InCustody(ViewOf(c'), c.queue) && SizesOk(c'.mtu) && c'.hdr == c.hdr && c'.queue == c.queue
    requires Total(c.pm.sent) == Total(c'.pm.sent) + bytes && c'.cc.inflight == Max(c.cc.inflight - bytes, 0)
    requires c'.log.unbooked == c.log.unbooked && c'.cc.cwnd >= c.cc.cwnd
    requires c'.cc.ptoTimer.Some? <==> c'.cc.inflight > 0
    ensures Steady(c')
  {
    hide InCustody, Total;
  }

  /** Leaving the map moves nothing else. */
  lemma OnwardSent(v: View, v': View)
    requires v' == v.(sent := v'.sent, largestAcked := v'.largestAcked, lossTimer := v'.lossTimer,
                      log := v.log.(acked := v'.log.acked))
    requires v'.sent.Keys <= v.sent.Keys
    ensures Grows(v, v')
  {
  }

  /** What an ACK does to flight, floor and probe timer. */
  lemma AckedController(cc: Congestion.Controller, bytes: nat, sample: Option<int>, ackDelay: int, largest: int,
                        now: int, target: int)
    ensures var cc' := Congestion.OnPacketAcked(cc, bytes, sample, ackDelay, largest, now, target);
            && cc'.inflight == Max(cc.inflight - bytes, 0)
            && (cc'.ptoTimer.Some? <==> cc'.inflight > 0)
            && cc'.cwnd >= cc.cwnd
  {
    hide Congestion.NextPto, Pacing.UpdateRate;
  }

  // ----- Loss -----

  lemma LostController(cc: Congestion.Controller, data: seq<SentPacket>, last: int, before: Option<int>)
    requires data != [] && cc.cwnd >= MIN_CWND
    ensures var cc' := CcAfterLoss(cc, data, last, before);
            && cc'.inflight == Max(cc.inflight - DataSize(data), 0)
            && cc'.ptoTimer == cc.ptoTimer && cc'.cwnd >= MIN_CWND
  {
    hide Pacing.UpdateRate;
  }

  /** The view without what was found lost. */
  function LostFrom(c: Conn, pm: Manager): View { ViewOf(c).(sent := pm.sent, lossTimer := pm.lossTimer) }

  lemma LossView(c: Conn, now: int, delay: int)
    requires Sound(c, c.queue)
    ensures var (pm, lost) := Detect(c.pm, now, delay);
            && SmallEnough(lost) && Total(c.pm.sent) == Total(pm.sent) + DataSize(lost)
            && pm.sent.Keys <= c.pm.sent.Keys && ViewOf(c.(pm := pm)) == LostFrom(c, pm)
            && InCustody(LostFrom(c, pm), c.queue + DataOnly(lost))
  {
    var (pm, lost) := Detect(c.pm, now, delay);
    var keys := if c.pm.largestAcked < 0 then {} else LostKeys(c.pm, now, delay);
    DetectReturnsTheLost(c.pm, now, delay);
    DataOnlyMembers(lost);
    LostSize(c.pm.sent, keys);
    forall p | p in lost ensures p.size <= MAX_DATAGRAM_SIZE { EntrySize(ViewOf(c), p.sequence); }
    assert pm.sent == c.pm.sent - keys;
    assert keys == {} ==> lost == [];
    hide InCustody, Total, Detect, InOrder, DataSize;
    LostMembers(c.pm, pm, lost, keys);
    LostLeave(ViewOf(c), LostFrom(c, pm), c.queue, keys, DataOnly(lost));
  }

  lemma LostMembers(m: Manager, m': Manager, lost: seq<SentPacket>, keys: set<nat>)
    requires m'.sent == m.sent - keys && keys <= m.sent.Keys && Ascending(lost)
    requires forall p <- lost :: p.sequence in m.sent && p == m.sent[p.sequence] && p.sequence !in m'.sent
    requires forall s <- m.sent :: s in m'.sent || m.sent[s] in lost
    ensures var data := DataOnly(lost);
            && Ascending(data)
            && (forall p <- data :: p.sequence in keys && p.sequence in m.sent && p == m.sent[p.sequence] && !p.probe)
            && (forall s :: s in keys && s in m.sent && !m.sent[s].probe ==> m.sent[s] in data)
  {
    DataOnlyMembers(lost);
  }

  /** Loss detection and everything it sets off. */
  lemma DetectSteady(c: Conn, now: int)
    requires Steady(c)
    ensures Steady(DetectLost(c, now)) && DetectLost(c, now).log.unbooked == c.log.unbooked
    ensures QueueServed(c) ==> QueueServed(DetectLost(c, now))
    ensures Proceeds(ViewOf(c), ViewOf(DetectLost(c, now)))
    ensures var pm := Detect(c.pm, now, LossDelay(c.cc.smoothedRtt, c.cc.latestRtt)).0;
            Onward(ViewOf(c.(pm := pm)), ViewOf(DetectLost(c, now)))
  {
    var delay := LossDelay(c.cc.smoothedRtt, c.cc.latestRtt);
    var (pm, lost) := Detect(c.pm, now, delay);
    LossView(c, now, delay);
    DataOnlySize(lost);
    var c0 := c.(pm := pm);
    OnwardSent(ViewOf(c), ViewOf(c0));
    OnwardRefl(ViewOf(c0));
    hide InCustody, Total, Detect, LossDelay, Flush, DataSize, DataOnly, Grows;
    if lost == [] {
      assert c.queue + DataOnly(lost) == c.queue by { DataOnlyMembers(lost); }
      assert DataSize(lost) == 0 by { NothingLost(); }
    } else {
      LostSteady(c, c0, lost, now);
      ProceedsTrans(ViewOf(c), ViewOf(c0), ViewOf(OnPacketsLost(c0, lost, now)));
    }
  }

  lemma NothingLost()
    ensures DataSize([]) == 0 && DataOnly([]) == []
  {
  }

  lemma LostSteady(c: Conn, c0: Conn, lost: seq<SentPacket>, now: int)
    requires Steady(c) && c0 == c.(pm := c0.pm) && lost != []
    requires SmallEnough(lost) && Total(c.pm.sent) == Total(c0.pm.sent) + DataSize(lost)
    requires InCustody(ViewOf(c0), c.queue + DataOnly(lost)) && DataSize(DataOnly(lost)) == DataSize(lost)
    ensures var c' := OnPacketsLost(c0, lost, now);
            && Steady(c') && c'.log.unbooked == c.log.unbooked && (QueueServed(c) ==> QueueServed(c'))
            && Onward(ViewOf(c0), ViewOf(c'))
  {
    var c1, data := c0.(mtu := MtuAfterLoss(c0.mtu, lost, !c0.ackedLarge, now)), DataOnly(lost);
    LossSizesOk(c0.mtu, lost, !c0.ackedLarge, now);
    NothingLost();
    assert OnPacketsLost(c0, lost, now) == if data == [] then c1 else FlushLost(Queued(c1, data), now);
    assert ViewOf(c1) == ViewOf(c0);
    hide *;
    if data == [] {
      assert c.queue + data == c.queue;
      NoneQueued(c, c1);
      OnwardRefl(ViewOf(c0));
    } else {
      QueuedSteady(c, c1, data);
      FlushSteady(Queued(c1, data).(lostTimer := None), now);
      FlushLostIs(Queued(c1, data), now);
    }
  }

  lemma NoneQueued(c: Conn, c1: Conn)
    requires Steady(c) && c1 == c.(pm := c1.pm, mtu := c1.mtu) && SizesOk(c1.mtu)
    requires Total(c.pm.sent) == Total(c1.pm.sent) && InCustody(ViewOf(c1), c.queue)
    ensures Steady(c1) && (QueueServed(c) ==> QueueServed(c1))
  {
    hide InCustody, Total;
  }

  lemma FlushLostIs(c: Conn, now: int)
    ensures FlushLost(c, now) == Flush(c.(lostTimer := None), now)
  {
  }

  /** The lost bytes leave flight as their records join the queue. */
  lemma QueuedSteady(c: Conn, c1: Conn, data: seq<SentPacket>)
    requires Steady(c) && c1 == c.(pm := c1.pm, mtu := c1.mtu) && SizesOk(c1.mtu) && data != []
    requires Total(c.pm.sent) == Total(c1.pm.sent) + DataSize(data) && InCustody(ViewOf(c1), c.queue + data)
    ensures var c2 := Queued(c1, data).(lostTimer := None);
            Steady(c2) && ViewOf(c2) == ViewOf(c1) && c2.log.unbooked == c.log.unbooked && c2.lostTimer.None?
  {
    hide InCustody, Total, DataSize, CcAfterLoss;
    LostController(c.cc, data, c1.pm.lastSentSeq, c1.pm.ackBeforeLoss);
    assert ViewOf(Queued(c1, data).(lostTimer := None)) == ViewOf(c1);
  }

  // ----- Path-MTU probes -----

  lemma ProbeTracked(v: View, v': View, pool: seq<SentPacket>, p: SentPacket)
    requires InCustody(v, pool) && TracksProbe(v, v', p)
    ensures InCustody(v', pool) && Onward(v, v')
  {
    CustodyParts(v, pool);
    hide *;
    ProbeExtends(v, v', p);
    ProbeEntries(v, v', p);
    ProbePlaced(v, v', pool, p);
    CustodyParts(v', pool);
  }

  /** `v'` is `v` with the path-MTU probe `p` tracked. */
  ghost predicate TracksProbe(v: View, v': View, p: SentPacket) {
    && p.probe && p.ref == v.nextRef && p.sequence == v.nextSeq && !p.isAcked && p.size <= MAX_DATAGRAM_SIZE
    && v' == v.(sent := v.sent[p.sequence := p], nextSeq := v.nextSeq + 1, lastSent := v.nextSeq,
                probes := v.probes[p.sequence := p.size], nextRef := v.nextRef + 1)
  }

  lemma CustodyParts(v: View, pool: seq<SentPacket>)
    ensures InCustody(v, pool) <==>
            TrackedOk(v) && PoolOk(v, pool) && Placed(v, pool) && WireOk(v) && Complete(v.log)
    ensures TrackedOk(v) ==> KeyedIn(v.sent, v.nextSeq)
  {
    hide TrackedOk, PoolOk, Placed, WireOk, Complete;
    if TrackedOk(v) { KeyedOf(v); }
  }

  lemma KeyedOf(v: View)
    requires TrackedOk(v)
    ensures KeyedIn(v.sent, v.nextSeq)
  {
  }

  lemma ProbeExtends(v: View, v': View, p: SentPacket)
    requires TracksProbe(v, v', p) && WireOk(v) && KeyedIn(v.sent, v.nextSeq)
    ensures Extends(v, v') && WireOk(v') && Onward(v, v') && v'.log == v.log
    ensures forall r: nat :: Untouched(v, v', r)
  {
    NextFree(v.sent, v.nextSeq);
    hide SpansOk, FrameOk, KeyedIn;
  }

  lemma ProbeEntries(v: View, v': View, p: SentPacket)
    requires TracksProbe(v, v', p) && TrackedOk(v) && WireOk(v) && Extends(v, v')
    requires forall r: nat :: Untouched(v, v', r)
    ensures TrackedOk(v')
  {
    hide SpansOk, FrameOk, Extends, Untouched;
    forall s | s in v.sent ensures v.sent[s].ref < p.ref { EntryRef(v, s); }
    KeyedPlus(v.sent, p);
    assert p.ref !in v.log.carriers;
    forall s | s in v'.sent ensures Entry(v', s) {
      if s != p.sequence {
        assert Entry(v, s);
        hide Entry;
        EntryKept(v, v', s);
      }
    }
  }

  lemma ProbePlaced(v: View, v': View, pool: seq<SentPacket>, p: SentPacket)
    requires TracksProbe(v, v', p) && PoolOk(v, pool) && Placed(v, pool) && KeyedIn(v.sent, v.nextSeq) && Extends(v, v')
    requires forall r: nat :: Untouched(v, v', r)
    ensures PoolOk(v', pool) && Placed(v', pool)
  {
    NextFree(v.sent, v.nextSeq);
    ProbeRefs(v.sent, p);
    PoolRefs(v, pool);
    hide Extends, Untouched, TrackedRefs, Live;
    PoolKept(v, v', pool);
  }

  lemma ProbeRefs(sent: map<nat, SentPacket>, p: SentPacket)
    requires p.probe && p.sequence !in sent
    ensures TrackedRefs(sent[p.sequence := p]) == TrackedRefs(sent)
  {
    var sent' := sent[p.sequence := p];
    forall r | r in TrackedRefs(sent) ensures r in TrackedRefs(sent') {
      var s :| s in sent && !sent[s].probe && sent[s].ref == r;
      assert s in sent' && sent'[s] == sent[s];
    }
  }

  lemma ProbeMtuSteady(c: Conn, now: int)
    requires Steady(c)
    ensures var c' := ProbeMtu(c, now);
            && Steady(c') && c'.queue == c.queue && c'.lostTimer == c.lostTimer && c'.cc == c.cc && c'.log == c.log
            && Onward(ViewOf(c), ViewOf(c')) && Total(c'.pm.sent) == Total(c.pm.sent)
  {
    var c' := ProbeMtu(c, now);
    SteadyParts(c);
    hide *;
    SoundParts(c, c.queue);
    ProbeMtuIs(c, now);
    if ViewOf(c') == ViewOf(c) {
      OnwardRefl(ViewOf(c));
      SameSent(c, c');
    } else {
      var p :| MtuProbed(c, c', p);
      MtuProbedIs(c, c', p);
      ProbeTracked(ViewOf(c), ViewOf(c'), c.queue, p);
      NextFree(c.pm.sent, c.pm.nextSeq);
      TotalPlus(c.pm.sent, c.pm.nextSeq, p);
    }
    SteadyFrom(c, c');
  }

  lemma SteadyParts(c: Conn)
    requires Steady(c)
    ensures Sound(c, c.queue) && Conserved(c, 0) && SizesOk(c.mtu) && Headers(c.hdr)
  {
    hide InCustody, Total;
  }

  lemma SameSent(c: Conn, c': Conn)
    requires ViewOf(c') == ViewOf(c)
    ensures c'.pm.sent == c.pm.sent
  {
  }

  lemma SteadyFrom(c: Conn, c': Conn)
    requires Steady(c) && InCustody(ViewOf(c'), c.queue) && Total(c'.pm.sent) == Total(c.pm.sent) && SizesOk(c'.mtu)
    requires c'.hdr == c.hdr && c'.cc == c.cc && c'.queue == c.queue && c'.log == c.log
    ensures Steady(c')
  {
    hide InCustody, Total;
  }

  /** `p` is a path-MTU probe, just tracked. */
  ghost predicate MtuProbed(c: Conn, c': Conn, p: SentPacket) {
    TracksProbe(ViewOf(c), ViewOf(c'), p)
  }

  lemma MtuProbedIs(c: Conn, c': Conn, p: SentPacket)
    requires MtuProbed(c, c', p)
    ensures TracksProbe(ViewOf(c), ViewOf(c'), p)
    ensures c'.pm.sent == c.pm.sent[c.pm.nextSeq := p] && Weight(p) == 0
  {
  }

  lemma ProbeMtuIs(c: Conn, now: int)
    requires SizesOk(c.mtu) && Headers(c.hdr)
    ensures var c' := ProbeMtu(c, now);
            && c'.hdr == c.hdr && c'.cc == c.cc && c'.queue == c.queue && c'.log == c.log && c'.lostTimer == c.lostTimer
            && SizesOk(c'.mtu) && (ViewOf(c') == ViewOf(c) || exists p :: MtuProbed(c, c', p))
  {
    var (mtu, size) := PathMtu.NextProbe(c.mtu, now);
    var frame := MtuProbe(size - c.hdr);
    var p := SentPacket(c.nextRef, c.pm.nextSeq, now, c.hdr + FrameLen(frame), false, [frame], 0, true);
    assert !c.cc.firstRttSample && size != 0 ==> MtuProbed(c, ProbeMtu(c, now), p);
  }

  // ----- The probe timeout -----

  /** What a probe timeout leaves alone. */
  ghost predicate ProbesOnly(c: Conn, c': Conn) {
    && Onward(ViewOf(c), ViewOf(c'))
    && c'.cc == c.cc.(pacer := c'.cc.pacer) && c'.queue == c.queue && c'.lostTimer == c.lostTimer
    && c'.mtu == c.mtu && c'.hdr == c.hdr && c.log.unbooked <= c'.log.unbooked
  }

  /** The entries under `moved` are gone, and every other is still there. */
  ghost predicate StillTracked(sent: map<nat, SentPacket>, sent': map<nat, SentPacket>, moved: set<nat>) {
    forall s <- sent :: if s in moved then s !in sent' else s in sent' && sent'[s] == sent[s]
  }

  /** What has left tracking does not come back under its old sequence. */
  lemma StillTrackedTrans(c: Conn, c1: Conn, c2: Conn, first: set<nat>, second: set<nat>)
    requires Sound(c, c.queue) && Onward(ViewOf(c), ViewOf(c1)) && Onward(ViewOf(c1), ViewOf(c2))
    requires StillTracked(c.pm.sent, c1.pm.sent, first) && StillTracked(c1.pm.sent, c2.pm.sent, second)
    ensures StillTracked(c.pm.sent, c2.pm.sent, first + second)
  {
    assert forall s <- c.pm.sent :: s < c.pm.nextSeq <= c1.pm.nextSeq;
  }

  lemma ProbePooled(c: Conn, p: SentPacket, more: seq<SentPacket>, now: int)
    requires Sound(c, [p] + more)
    ensures !p.probe
    ensures var c' := ProbeWith(c, p, now);
            && Sound(c', more) && ProbesOnly(c, c') && c'.log.unbooked == c.log.unbooked
            && Total(c'.pm.sent) == Total(c.pm.sent) + p.size && StillTracked(c.pm.sent, c'.pm.sent, {})
  {
    hide *;
    PooledFresh(c, p, more);
    RetransmitPooled(c, p, more, now);
    var c1 := Retransmit(c, p, now).value;
    ProbeWithIs(c, p, c1, now);
    Unpaced(c, c1, ProbeWith(c, p, now), more);
  }

  /** A pooled record is tracked nowhere, and the next sequence is free. */
  lemma PooledFresh(c: Conn, p: SentPacket, more: seq<SentPacket>)
    requires Sound(c, [p] + more)
    ensures !p.probe && !p.isAcked && IsData(p) && Drop(c.pm, p) == c.pm && c.pm.nextSeq !in c.pm.sent
  {
    assert ([p] + more)[0] in [p] + more;
    assert p.ref in DataRefs([p] + more);
    NextFree(c.pm.sent, c.pm.nextSeq);
    hide FrameOk, WireOk, Complete, Placed;
  }

  /** Pieces go out one by one; those to come are still pending. */
  lemma {:induction false} ProbePieces(c: Conn, ps: seq<SentPacket>, rest: seq<SentPacket>, k: nat, now: int)
    requires Sound(c, ps + rest) && k <= |ps|
    ensures var c' := Probe(c, ps[..k], now);
            && Sound(c', ps[k..] + rest) && ProbesOnly(c, c') && c'.log.unbooked == c.log.unbooked
            && Total(c'.pm.sent) == Total(c.pm.sent) + DataSize(ps[..k]) && StillTracked(c.pm.sent, c'.pm.sent, {})
  {
    OnwardRefl(ViewOf(c));
    hide Sound, Total, ProbeWith, Onward;
    if k == 0 {
      assert ps[..0] == [] && ps[0..] == ps;
    } else {
      ProbePieces(c, ps, rest, k - 1, now);
      var c1, p := Probe(c, ps[..k - 1], now), ps[k - 1];
      assert ps[k - 1..] + rest == [p] + (ps[k..] + rest);
      assert ps[..k][..k - 1] == ps[..k - 1];
      ProbePooled(c1, p, ps[k..] + rest, now);
      OnwardTrans(ViewOf(c), ViewOf(c1), ViewOf(ProbeWith(c1, p, now)));
    }
  }

  /** Pieces pending, headers not booked: flight is still what is tracked or pending. */
  lemma SplitUnbookedSound(c: Conn, p: SentPacket)
    requires Sound(c, c.queue) && Conserved(c, 0) && MustSplit(c, p)
    requires p.sequence in c.pm.sent && c.pm.sent[p.sequence] == p && !p.probe
    ensures var c' := SplitUnbooked(c, p);
            && Sound(c', Pieces(c, p) + c.queue) && Conserved(c', DataSize(Pieces(c, p))) && ProbesOnly(c, c')
            && StillTracked(c.pm.sent, c'.pm.sent, {p.sequence})
            && Total(c.pm.sent) <= Total(c'.pm.sent) + DataSize(Pieces(c, p))
  {
    SplitShape(c, p);
    TrackedLive(ViewOf(c), p.sequence);
    hide *;
    SplitTracked(c, p, c.queue);
    PiecesSize(c, p);
    SoundUnbooked(Split(c, p), SplitUnbooked(c, p), Pieces(c, p) + c.queue);
    MovedToPending(c, SplitUnbooked(c, p), p.size, DataSize(Pieces(c, p)));
  }

  lemma SplitShape(c: Conn, p: SentPacket)
    requires MustSplit(c, p) && p.sequence in c.pm.sent && c.pm.sent[p.sequence] == p
    ensures var c1, c' := Split(c, p), SplitUnbooked(c, p);
            && c' == c1.(log := c1.log.(unbooked := c'.log.unbooked)) && c'.cc == c.cc && c'.queue == c.queue
            && ProbesOnly(c, c') && StillTracked(c.pm.sent, c'.pm.sent, {p.sequence})
            && c'.log.unbooked == c.log.unbooked + ExtraHeaders(|Pieces(c, p)| - 1, c.hdr + STREAM_FRAME_HEADER)
  {
    PiecesFit(c, p);
    OnwardSplit(c, ViewOf(SplitUnbooked(c, p)), p, Drop(c.pm, p).sent);
    hide Pieces, PieceFrames, PieceSpans, Onward;
  }

  lemma SoundUnbooked(c: Conn, c': Conn, pool: seq<SentPacket>)
    requires Sound(c, pool) && c' == c.(log := c.log.(unbooked := c'.log.unbooked))
    ensures Sound(c', pool)
  {
    hide InCustody;
    UnbookedFree(ViewOf(c), ViewOf(c'), pool);
  }

  lemma MovedToPending(c: Conn, c': Conn, size: nat, pending: nat)
    requires Conserved(c, 0) && Total(c.pm.sent) == Total(c'.pm.sent) + size && c'.cc.inflight == c.cc.inflight
    requires pending >= size && c'.log.unbooked == c.log.unbooked + (pending - size)
    ensures Conserved(c', pending)
  {
    hide Total;
  }

  lemma PendingTracked(c: Conn, c': Conn, pending: nat)
    requires Conserved(c, pending) && Total(c'.pm.sent) == Total(c.pm.sent) + pending
    requires c'.cc.inflight == c.cc.inflight && c'.log.unbooked == c.log.unbooked
    ensures Conserved(c', 0)
  {
    hide Total;
  }

  lemma ProbeSplit(c: Conn, p: SentPacket, now: int)
    requires Sound(c, c.queue) && Conserved(c, 0) && MustSplit(c, p)
    requires p.sequence in c.pm.sent && c.pm.sent[p.sequence] == p && !p.probe
    ensures var c' := Probe(SplitUnbooked(c, p), Pieces(c, p), now);
            && Sound(c', c.queue) && Conserved(c', 0) && ProbesOnly(c, c')
            && StillTracked(c.pm.sent, c'.pm.sent, {p.sequence}) && Total(c.pm.sent) <= Total(c'.pm.sent)
  {
    hide *;
    SplitShape(c, p);
    var ps, c2 := Pieces(c, p), SplitUnbooked(c, p);
    SplitUnbookedSound(c, p);
    ProbeAllPieces(c2, ps, c.queue, now);
    ThenAlso(c, c2, Probe(c2, ps, now), {p.sequence}, {});
    assert {p.sequence} + {} == {p.sequence};
    PendingTracked(c2, Probe(c2, ps, now), DataSize(ps));
  }

  lemma ProbeAllPieces(c: Conn, ps: seq<SentPacket>, rest: seq<SentPacket>, now: int)
    requires Sound(c, ps + rest)
    ensures var c' := Probe(c, ps, now);
            && Sound(c', rest) && ProbesOnly(c, c') && c'.cc.inflight == c.cc.inflight
            && c'.log.unbooked == c.log.unbooked
            && Total(c'.pm.sent) == Total(c.pm.sent) + DataSize(ps) && StillTracked(c.pm.sent, c'.pm.sent, {})
  {
    hide Sound, Total, Probe, DataSize;
    assert ps[..|ps|] == ps && ps[|ps|..] + rest == rest;
    ProbePieces(c, ps, rest, |ps|, now);
  }

  lemma ThenAlso(c: Conn, c1: Conn, c2: Conn, first: set<nat>, second: set<nat>)
    requires Sound(c, c.queue) && ProbesOnly(c, c1) && ProbesOnly(c1, c2)
    requires StillTracked(c.pm.sent, c1.pm.sent, first) && StillTracked(c1.pm.sent, c2.pm.sent, second)
    ensures ProbesOnly(c, c2) && StillTracked(c.pm.sent, c2.pm.sent, first + second)
  {
    hide Onward, Sound, StillTracked;
    OnwardTrans(ViewOf(c), ViewOf(c1), ViewOf(c2));
    StillTrackedTrans(c, c1, c2, first, second);
  }

  lemma ProbeWhole(c: Conn, p: SentPacket, now: int)
    requires Sound(c, c.queue) && Conserved(c, 0)
    requires p.sequence in c.pm.sent && c.pm.sent[p.sequence] == p && !p.probe
    ensures var c' := ProbeWith(c, p, now);
            && Sound(c', c.queue) && Conserved(c', 0) && ProbesOnly(c, c') && c'.log.unbooked == c.log.unbooked
            && StillTracked(c.pm.sent, c'.pm.sent, {p.sequence}) && Total(c.pm.sent) <= Total(c'.pm.sent)
  {
    hide *;
    RetransmitTracked(c, p, c.queue, now);
    var c1 := Retransmit(c, p, now).value;
    ProbeWithIs(c, p, c1, now);
    Unpaced(c, c1, ProbeWith(c, p, now), c.queue);
    PendingTracked(c, ProbeWith(c, p, now), 0);
  }

  lemma ProbeWithIs(c: Conn, p: SentPacket, c1: Conn, now: int)
    requires Retransmit(c, p, now) == Some(c1)
    ensures var c' := ProbeWith(c, p, now);
            c' == c1.(cc := c1.cc.(pacer := c'.cc.pacer)) && c'.pm == c1.pm && c'.log == c1.log
  {
    hide Retransmit, Pacing.OnSent;
  }

  /** Drawing from the pacer changes nothing else. */
  lemma Unpaced(c: Conn, c1: Conn, c': Conn, pool: seq<SentPacket>)
    requires OnlyTracking(c, c1) && Onward(ViewOf(c), ViewOf(c1)) && Sound(c1, pool)
    requires c' == c1.(cc := c1.cc.(pacer := c'.cc.pacer))
    ensures Sound(c', pool) && ProbesOnly(c, c') && c'.log.unbooked == c.log.unbooked && c'.cc.inflight == c.cc.inflight
  {
    hide InCustody, Onward;
    assert ViewOf(c') == ViewOf(c1);
  }

  /** One outstanding packet goes out again, whole or in pieces. */
  lemma ProbeOneSound(c: Conn, p: SentPacket, now: int)
    requires Sound(c, c.queue) && Conserved(c, 0)
    requires p.sequence in c.pm.sent && c.pm.sent[p.sequence] == p && !p.probe
    ensures var c' := ProbeOne(c, p, now);
            && Sound(c', c.queue) && Conserved(c', 0) && ProbesOnly(c, c')
            && StillTracked(c.pm.sent, c'.pm.sent, {p.sequence}) && Total(c.pm.sent) <= Total(c'.pm.sent)
            && (!MustSplit(c, p) ==> c'.log.unbooked == c.log.unbooked)
  {
    hide *;
    ProbeOneIs(c, p, now);
    if MustSplit(c, p) { ProbeSplit(c, p, now); } else { ProbeWhole(c, p, now); }
  }

  lemma ProbeOneIs(c: Conn, p: SentPacket, now: int)
    ensures ProbeOne(c, p, now) ==
            if MustSplit(c, p) then Probe(SplitUnbooked(c, p), Pieces(c, p), now) else ProbeWith(c, p, now)
  {
  }

  /** Custody does not look at the count of unbooked headers. */
  lemma UnbookedFree(v: View, v': View, pool: seq<SentPacket>)
    requires InCustody(v, pool) && v' == v.(log := v.log.(unbooked := v'.log.unbooked))
    ensures InCustody(v', pool)
  {
    assert forall t, g :: FrameOk(v.log, t, g) ==> FrameOk(v'.log, t, g);
    hide FrameOk;
    WireKept(v, v');
    hide WireOk, Complete;
    TrackedSub(v, v');
    PoolKept(v, v', pool);
  }

  lemma {:induction false} ProbeEachSound(c: Conn, ps: seq<SentPacket>, now: int)
    requires Sound(c, c.queue) && Conserved(c, 0)
    requires forall p <- ps :: p.sequence in c.pm.sent && c.pm.sent[p.sequence] == p && !p.probe
    requires Ascending(ps)
    ensures var c' := ProbeEach(c, ps, now);
            && Sound(c', c.queue) && Conserved(c', 0) && ProbesOnly(c, c')
            && StillTracked(c.pm.sent, c'.pm.sent, Sequences(ps)) && Total(c.pm.sent) <= Total(c'.pm.sent)
            && ((forall p <- ps :: !MustSplit(c, p)) ==> c'.log.unbooked == c.log.unbooked)
  {
    OnwardRefl(ViewOf(c));
    hide Sound, Conserved, ProbeOne, Onward, Total;
    if ps != [] {
      var init, p := ps[..|ps| - 1], ps[|ps| - 1];
      LastOf(ps);
      ProbeEachSound(c, init, now);
      var c1 := ProbeEach(c, init, now);
      assert p.sequence in c1.pm.sent && c1.pm.sent[p.sequence] == p;
      ProbeOneSound(c1, p, now);
      hide StillTracked;
      ThenAlso(c, c1, ProbeOne(c1, p, now), Sequences(init), {p.sequence});
    }
  }

  lemma LastOf(ps: seq<SentPacket>)
    requires ps != [] && Ascending(ps)
    ensures var init, p := ps[..|ps| - 1], ps[|ps| - 1];
            && p in ps && (forall x :: x in init ==> x in ps) && Ascending(init) && p.sequence !in Sequences(init)
            && Sequences(ps) == Sequences(init) + {p.sequence}
  {
    var init, p := ps[..|ps| - 1], ps[|ps| - 1];
    assert ps == init + [p];
  }

  lemma OnPtoSound(c: Conn, now: int)
    requires Sound(c, c.queue) && Conserved(c, 0)
    ensures var c' := OnPto(c, now);
            && Sound(c', c.queue) && Conserved(c', 0) && ProbesOnly(AtPto(c, now), c')
            && Total(c.pm.sent) <= Total(c'.pm.sent) && (Oldest(c.pm, PTO_PROBES) == [] ==> c' == AtPto(c, now))
            && StillTracked(c.pm.sent, c'.pm.sent, Sequences(Oldest(c.pm, PTO_PROBES)))
            && ((forall p <- Oldest(c.pm, PTO_PROBES) :: !MustSplit(AtPto(c, now), p)) ==>
                  c'.log.unbooked == c.log.unbooked)
  {
    hide *;
    AtPtoSound(c, now);
    OnPtoIs(c, now);
    SoundKeyed(c);
    OldestTracked(c.pm, PTO_PROBES);
    ProbeEachSound(AtPto(c, now), Oldest(c.pm, PTO_PROBES), now);
  }

  lemma AtPtoSound(c: Conn, now: int)
    requires Sound(c, c.queue) && Conserved(c, 0)
    ensures var c1 := AtPto(c, now);
            && c1 == c.(mtu := c1.mtu) && ViewOf(c1) == ViewOf(c)
            && Sound(c1, c1.queue) && Conserved(c1, 0)
  {
    hide InCustody, Total;
    assert ViewOf(AtPto(c, now)) == ViewOf(c);
  }

  lemma OnPtoIs(c: Conn, now: int)
    ensures OnPto(c, now) == ProbeEach(AtPto(c, now), Oldest(AtPto(c, now).pm, PTO_PROBES), now)
    ensures ProbeEach(AtPto(c, now), [], now) == AtPto(c, now)
  {
    hide Oldest, ProbeOne;
  }

  lemma SoundKeyed(c: Conn)
    requires Sound(c, c.queue)
    ensures Keyed(c.pm)
  {
  }

  /** The probe timeout keeps everything and waits again if anything is in flight; it
      leaves headers unbooked only where the path shrank under a packet. */
  lemma PtoSteady(c: Conn, now: int)
    requires Steady(c)
    ensures var c' := PtoFires(c, now);
            && Steady(c') && (QueueServed(c) ==> QueueServed(c')) && Onward(ViewOf(c), ViewOf(c'))
            && c'.queue == c.queue && c'.lostTimer == c.lostTimer && c'.cc.inflight == c.cc.inflight
            && (c'.cc.ptoTimer.Some? <==> c.cc.inflight > 0) && Total(c.pm.sent) <= Total(c'.pm.sent)
            && (Oldest(c.pm, PTO_PROBES) == [] ==> c'.pm == c.pm)
            && StillTracked(c.pm.sent, c'.pm.sent, Sequences(Oldest(c.pm, PTO_PROBES)))
            && (NoRechunk(c, now) ==> c'.log.unbooked == c.log.unbooked)
  {
    hide InCustody, Total, Onward, Oldest, OnPto, MustSplit, StillTracked, Congestion.NextPto;
    var c0 := c.(cc := Congestion.PtoExpired(c.cc));
    assert ViewOf(c0) == ViewOf(c);
    OnPtoSound(c0, now);
    assert ViewOf(PtoFires(c, now)) == ViewOf(OnPto(c0, now));
  }

  /** The state the probes are sent from: the size falls back first when nothing was
      acknowledged for several timeouts. */
  function AtPto(c: Conn, now: int): Conn {
    if c.cc.ptoCount >= PathMtu.BLACKHOLE_PTOS then c.(mtu := PathMtu.Blackhole(c.mtu, now)) else c
  }

  /** This probe timeout re-chunks nothing. */
  ghost predicate NoRechunk(c: Conn, now: int) {
    var c1 := AtPto(c.(cc := Congestion.PtoExpired(c.cc)), now);
    forall p <- Oldest(c1.pm, PTO_PROBES) :: !MustSplit(c1, p)
  }

  lemma OldestTracked(m: Manager, n: nat)
    requires Keyed(m)
    ensures Ascending(Oldest(m, n))
    ensures forall p <- Oldest(m, n) :: p.sequence in m.sent && m.sent[p.sequence] == p && !p.probe
  {
    InOrderSorted(m.sent, DataKeys(m));
    InOrderMembers(m.sent, DataKeys(m));
    assert forall p <- Oldest(m, n) :: p in InOrder(m.sent, DataKeys(m));
  }
}
