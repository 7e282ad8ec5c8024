/** Sent packets awaiting acknowledgement: numbering, matching ACKs to packets and
    declaring loss (section 6.1 of RFC 9002). */
module Packets {
  import opened Frames

  const LOSS_REORDER_THRESHOLD: int := 3
  const LOSS_TIMER_GRANULARITY: int := MILLISECOND

  /** A tracked transmission. `ref` is the record's identity: the source compares
      addresses where this compares `ref`. */
  datatype SentPacket = SentPacket(
    ref: nat, sequence: nat, sentTime: int, size: nat, isAcked: bool,
    frames: seq<Frame>, streamId: nat, probe: bool)

  datatype Manager = Manager(
    nextSeq: nat, lastSentSeq: int, sent: map<nat, SentPacket>, largestAcked: int,
    lastAckTime: Option<int>, ackBeforeLoss: Option<int>, lossTimer: Option<int>)

  function Fresh(): Manager {
    Manager(0, -1, map[], -1, None, None, None)
  }

  /** Two entries are never the same record. */
  ghost predicate OneEntry(sent: map<nat, SentPacket>, s: nat, t: nat)
    requires s in sent && t in sent
  {
    sent[s].ref == sent[t].ref ==> s == t
  }

  /** Every tracked packet sits under its own current sequence, below the next one,
      and no record is tracked twice. */
  ghost predicate KeyedIn(sent: map<nat, SentPacket>, nextSeq: nat) {
    && (forall s <- sent :: sent[s].sequence == s < nextSeq)
    && (forall s, t {:trigger OneEntry(sent, s, t)} :: s in sent && t in sent ==> OneEntry(sent, s, t))
  }

  ghost predicate Keyed(m: Manager) { KeyedIn(m.sent, m.nextSeq) }

  // ----- Reading an ACK frame -----

  /** `n` sequence numbers downward from `hi`, in the sender's 32-bit arithmetic. */
  function RangeDown(hi: int, n: nat): (r: seq<nat>)
    ensures |r| == n
  {
    seq(n, i => (hi - i) % TWO_32)
  }

  function ExpandRanges(hi: int, ranges: seq<AckRange>): seq<nat>
    decreases |ranges|
  {
    if ranges == [] then []
    else
      var end := hi - ranges[0].gap;
      RangeDown(end, ranges[0].length) + ExpandRanges(end - ranges[0].length, ranges[1..])
  }

  /** Every sequence number an ACK frame acknowledges, in the order it is read. */
  function Expand(f: AckFrame): seq<nat> {
    RangeDown(f.largestAcked, f.firstLength)
      + ExpandRanges(f.largestAcked - f.firstLength, f.ranges)
  }

  /** Take the packets tracked under `seqs` out of the map, first occurrence first. */
  function TakeAll(sent: map<nat, SentPacket>, seqs: seq<nat>): (r: (map<nat, SentPacket>, seq<SentPacket>)) {
    if seqs == [] then (sent, [])
    else
      var (rest, acked) := TakeAll(sent, seqs[..|seqs| - 1]);
      var s := seqs[|seqs| - 1];
      if s in rest then (rest - {s}, acked + [rest[s].(isAcked := true)])
      else (rest, acked)
  }

  function HandleAck(m: Manager, f: AckFrame, now: int): (Manager, seq<SentPacket>) {
    var (rest, acked) := TakeAll(m.sent, Expand(f));
    if acked == [] then (m, [])
    else
      (m.(sent := rest, ackBeforeLoss := m.lastAckTime, lastAckTime := Some(now),
          largestAcked := Max(m.largestAcked, f.largestAcked)),
       acked)
  }

  lemma NothingTaken(m: Manager, f: AckFrame, now: int)
    ensures HandleAck(m, f, now).1 == [] ==> HandleAck(m, f, now).0 == m
  {
  }

  /** An ACK removes exactly the tracked packets it names and returns each of them
      once, marked; nothing else is touched. */
  lemma {:induction false} TakeAllIsExact(sent: map<nat, SentPacket>, seqs: seq<nat>)
    ensures var (rest, acked) := TakeAll(sent, seqs);
            && rest == (map s | s in sent && s !in seqs :: sent[s])
            && (forall p <- acked :: exists s :: s in sent && s in seqs && p == sent[s].(isAcked := true))
            && (forall s :: s in sent && s in seqs ==> sent[s].(isAcked := true) in acked)
  {
    if seqs != [] {
      var init, s := seqs[..|seqs| - 1], seqs[|seqs| - 1];
      assert seqs == init + [s];
      TakeAllIsExact(sent, init);
      var (rest0, acked0) := TakeAll(sent, init);
      var (rest, acked) := TakeAll(sent, seqs);
      assert forall x :: x in seqs <==> x in init || x == s;
      forall p | p in acked ensures exists x :: x in sent && x in seqs && p == sent[x].(isAcked := true) {
        if p in acked0 {
          var x :| x in sent && x in init && p == sent[x].(isAcked := true);
          assert x in seqs;
        } else {
          assert p == sent[s].(isAcked := true);
        }
      }
    }
  }

  /** No packet is returned twice by one ACK. */
  lemma {:induction false} TakeAllDistinct(sent: map<nat, SentPacket>, seqs: seq<nat>)
    requires forall s <- sent :: sent[s].sequence == s
    ensures var acked := TakeAll(sent, seqs).1;
            forall i, j :: 0 <= i < j < |acked| ==> acked[i].sequence != acked[j].sequence
  {
    if seqs != [] {
      var init := seqs[..|seqs| - 1];
      TakeAllDistinct(sent, init);
      TakeAllIsExact(sent, init);
      var (rest0, acked0) := TakeAll(sent, init);
      forall p | p in acked0 ensures p.sequence !in rest0 {
        var x :| x in sent && x in init && p == sent[x].(isAcked := true);
      }
    }
  }

  // ----- Declaring loss -----

  /** 9/8 of the larger RTT estimate, floored at the timer granularity. */
  function LossDelay(smoothedRtt: int, latestRtt: int): (d: int)
    ensures d >= LOSS_TIMER_GRANULARITY
    ensures 8 * d + 8 > 9 * smoothedRtt && 8 * d + 8 > 9 * latestRtt
    ensures d > LOSS_TIMER_GRANULARITY ==> 8 * d <= 9 * smoothedRtt || 8 * d <= 9 * latestRtt
  {
    Max(Max(smoothedRtt, latestRtt) * 9 / 8, LOSS_TIMER_GRANULARITY)
  }

  predicate IsLost(p: SentPacket, s: nat, largestAcked: int, now: int, delay: int) {
    && s <= largestAcked
    && (largestAcked - s >= LOSS_REORDER_THRESHOLD || now >= p.sentTime + delay)
  }

  ghost function LostKeys(m: Manager, now: int, delay: int): set<nat> {
    set s | s in m.sent && IsLost(m.sent[s], s, m.largestAcked, now, delay)
  }

  /** Tracked, at or below the largest acknowledged, but not yet old enough. */
  ghost function WaitingKeys(m: Manager, now: int, delay: int): set<nat> {
    set s | s in m.sent && s <= m.largestAcked && !IsLost(m.sent[s], s, m.largestAcked, now, delay)
  }

  lemma {:induction false} LeastBelow(keys: set<nat>, k: nat)
    requires k in keys
    ensures exists l :: l in keys && forall j <- keys :: l <= j
  {
    if j :| j in keys && j < k {
      LeastBelow(keys, j);
    }
  }

  ghost function Least(keys: set<nat>): (k: nat)
    requires keys != {}
    ensures k in keys && forall j <- keys :: k <= j
  {
    var any :| any in keys;
    LeastBelow(keys, any);
    var k :| k in keys && forall j <- keys :: k <= j;
    k
  }

  /** The packets under `keys`, lowest sequence first. */
  ghost function InOrder(sent: map<nat, SentPacket>, keys: set<nat>): (r: seq<SentPacket>)
    requires keys <= sent.Keys
    ensures |r| == |keys|
    decreases |keys|
  {
    if keys == {} then [] else
      var k := Least(keys);
      [sent[k]] + InOrder(sent, keys - {k})
  }

  lemma {:induction false} InOrderMembers(sent: map<nat, SentPacket>, keys: set<nat>)
    requires keys <= sent.Keys
    ensures forall k <- keys :: sent[k] in InOrder(sent, keys)
    ensures forall p <- InOrder(sent, keys) :: exists k :: k in keys && p == sent[k]
    decreases |keys|
  {
    if keys != {} {
      var k := Least(keys);
      InOrderMembers(sent, keys - {k});
      forall p | p in InOrder(sent, keys) ensures exists j :: j in keys && p == sent[j] {
        if p != sent[k] {
          var j :| j in keys - {k} && p == sent[j];
          assert j in keys;
        }
      }
    }
  }

  ghost predicate Ascending(r: seq<SentPacket>) {
    forall i, j :: 0 <= i < j < |r| ==> r[i].sequence < r[j].sequence
  }

  /** Sorted and duplicate free when every packet is keyed by its own sequence. */
  lemma {:induction false} InOrderSorted(sent: map<nat, SentPacket>, keys: set<nat>)
    requires keys <= sent.Keys
    requires forall s <- sent :: sent[s].sequence == s
    ensures Ascending(InOrder(sent, keys))
    decreases |keys|
  {
    hide InOrder, Least;
    InOrderIs(sent, keys);
    if keys != {} {
      var k := Least(keys);
      InOrderSorted(sent, keys - {k});
      InOrderMembers(sent, keys - {k});
      var rest := InOrder(sent, keys - {k});
      forall j | 0 <= j < |rest| ensures k < rest[j].sequence {
        assert rest[j] in rest;
        var x :| x in keys - {k} && rest[j] == sent[x];
      }
      var r := InOrder(sent, keys);
      assert r == [sent[k]] + rest;
      forall i, j | 0 <= i < j < |r| ensures r[i].sequence < r[j].sequence {
        assert r[j] == rest[j - 1];
        if i > 0 { assert r[i] == rest[i - 1]; }
      }
    }
  }

  /** A strictly ascending listing of the packets under `keys` is `InOrder`. */
  lemma {:induction false} InOrderUnique(sent: map<nat, SentPacket>, keys: set<nat>, r: seq<SentPacket>)
    requires keys <= sent.Keys
    requires forall s <- sent :: sent[s].sequence == s
    requires Ascending(r)
    requires forall p <- r :: p.sequence in keys && p == sent[p.sequence]
    requires forall k <- keys :: sent[k] in r
    ensures r == InOrder(sent, keys)
    decreases |keys|
  {
    hide *;
    assert r != [] ==> r[0] in r;
    InOrderIs(sent, keys);
    if keys != {} {
      var k := Least(keys);
      LeastFirst(sent, keys, r, k);
      InOrderTail(sent, keys, r, k);
      AscendingTail(r);
      InOrderUnique(sent, keys - {k}, r[1..]);
      assert r == [r[0]] + r[1..];
    }
  }

  lemma InOrderIs(sent: map<nat, SentPacket>, keys: set<nat>)
    requires keys <= sent.Keys
    ensures InOrder(sent, keys) ==
            if keys == {} then [] else [sent[Least(keys)]] + InOrder(sent, keys - {Least(keys)})
  {
    hide Least;
  }

  lemma AscendingTail(r: seq<SentPacket>)
    requires r != [] && Ascending(r)
    ensures Ascending(r[1..])
  {
  }

  lemma LeastFirst(sent: map<nat, SentPacket>, keys: set<nat>, r: seq<SentPacket>, k: nat)
    requires keys <= sent.Keys && k in keys && forall j <- keys :: k <= j
    requires forall s <- sent :: sent[s].sequence == s
    requires Ascending(r) && forall p <- r :: p.sequence in keys
    requires sent[k] in r
    ensures r[0] == sent[k]
  {
    var i :| 0 <= i < |r| && r[i] == sent[k];
    assert r[0] in r;
  }

  lemma InOrderTail(sent: map<nat, SentPacket>, keys: set<nat>, r: seq<SentPacket>, k: nat)
    requires keys <= sent.Keys && k in keys
    requires forall s <- sent :: sent[s].sequence == s
    requires r != [] && r[0] == sent[k]
    requires Ascending(r)
    requires forall p <- r :: p.sequence in keys && p == sent[p.sequence]
    requires forall j <- keys :: sent[j] in r
    ensures forall p <- r[1..] :: p.sequence in keys - {k} && p == sent[p.sequence]
    ensures forall j <- keys - {k} :: sent[j] in r[1..]
  {
    forall p | p in r[1..] ensures p.sequence in keys - {k} && p == sent[p.sequence] {
      var i :| 0 <= i < |r| - 1 && r[1..][i] == p;
      assert r[i + 1] == p && p in r;
    }
    forall j | j in keys - {k} ensures sent[j] in r[1..] {
      var i :| 0 <= i < |r| && r[i] == sent[j];
      assert r[1..][i - 1] == sent[j];
    }
  }

  ghost function Sequences(ps: seq<SentPacket>): set<nat> {
    set p | p in ps :: p.sequence
  }

  lemma InOrderSequences(sent: map<nat, SentPacket>, keys: set<nat>)
    requires keys <= sent.Keys
    requires forall s <- sent :: sent[s].sequence == s
    ensures Sequences(InOrder(sent, keys)) == keys
  {
    InOrderMembers(sent, keys);
  }

  /** When the oldest waiting packet becomes old enough. */
  ghost predicate IsNextLoss(m: Manager, keys: set<nat>, delay: int, at: int) {
    && keys <= m.sent.Keys
    && (exists s :: s in keys && at == m.sent[s].sentTime + delay)
    && (forall s <- keys :: at <= m.sent[s].sentTime + delay)
  }

  lemma NextLossExists(m: Manager, keys: set<nat>, delay: int)
    requires keys <= m.sent.Keys && keys != {}
    ensures exists at :: IsNextLoss(m, keys, delay, at)
  {
    var s: nat :| s in keys;
    if keys == {s} {
      assert IsNextLoss(m, keys, delay, m.sent[s].sentTime + delay);
    } else {
      assert keys - {s} != {};
      NextLossExists(m, keys - {s}, delay);
      var at :| IsNextLoss(m, keys - {s}, delay, at);
      var mine := m.sent[s].sentTime + delay;
      assert IsNextLoss(m, keys, delay, Min(at, mine));
    }
  }

  ghost function LossTimerFor(m: Manager, now: int, delay: int): Option<int> {
    var waiting := WaitingKeys(m, now, delay);
    if waiting == {} then None
    else
      NextLossExists(m, waiting, delay);
      var at :| IsNextLoss(m, waiting, delay, at);
      Some(Max(at, now + LOSS_TIMER_GRANULARITY))
  }

  /** Loss detection: what is lost, in sequence order, and the state without it. */
  ghost function Detect(m: Manager, now: int, delay: int): (Manager, seq<SentPacket>) {
    if m.largestAcked < 0 then (m.(lossTimer := None), [])
    else
      var lost := LostKeys(m, now, delay);
      (m.(sent := m.sent - lost, lossTimer := LossTimerFor(m, now, delay)), InOrder(m.sent, lost))
  }

  /** Section 6.1 of RFC 9002: after detection, whatever is still tracked at or below
      the largest acknowledged trails it by less than the threshold and is younger
      than the loss delay, and the loss timer is armed exactly when there is such a
      packet. */
  lemma DetectLeavesOnlyYoung(m: Manager, now: int, delay: int)
    ensures var (m', _) := Detect(m, now, delay);
            && (forall s <- m'.sent :: s in m.sent && m'.sent[s] == m.sent[s])
            && (forall s <- m'.sent :: s <= m.largestAcked ==>
                  m.largestAcked - s < LOSS_REORDER_THRESHOLD && now < m.sent[s].sentTime + delay)
            && (m'.lossTimer.Some? <==> exists s :: s in m'.sent && s <= m.largestAcked)
  {
    if m.largestAcked >= 0 {
      var m' := Detect(m, now, delay).0;
      var waiting := WaitingKeys(m, now, delay);
      forall s | s in m'.sent && s <= m.largestAcked ensures s in waiting {
        assert s !in LostKeys(m, now, delay);
      }
      if waiting != {} {
        var s :| s in waiting;
        assert s in m'.sent;
      }
    }
  }

  /** What detection returns is exactly what it removed, in sequence order, and each
      packet of it is three or more behind the largest acknowledged, or below it and as old
      as the loss delay. */
  lemma DetectReturnsTheLost(m: Manager, now: int, delay: int)
    requires forall s <- m.sent :: m.sent[s].sequence == s
    ensures var (m', lost) := Detect(m, now, delay);
            && Ascending(lost)
            && (forall p <- lost :: p.sequence in m.sent && p == m.sent[p.sequence] && p.sequence !in m'.sent
                  && p.sequence <= m.largestAcked
                  && (m.largestAcked - p.sequence >= 3 || now >= p.sentTime + delay))
            && (forall s <- m.sent :: s in m'.sent || m.sent[s] in lost)
  {
    var keys := LostKeys(m, now, delay);
    InOrderMembers(m.sent, keys);
    InOrderSorted(m.sent, keys);
  }

  /** The loss timer is set for when the first of the packets it watches will be old enough,
      and for no sooner than the granularity allows. */
  lemma LossTimerTime(m: Manager, now: int, delay: int)
    requires Detect(m, now, delay).0.lossTimer.Some?
    ensures var m' := Detect(m, now, delay).0;
            var at := m'.lossTimer.value;
            && (forall s <- m'.sent :: s <= m.largestAcked ==>
                  at <= Max(m'.sent[s].sentTime + delay, now + LOSS_TIMER_GRANULARITY))
            && (exists s :: s in m'.sent && s <= m.largestAcked
                  && at == Max(m'.sent[s].sentTime + delay, now + LOSS_TIMER_GRANULARITY))
  {
    var m', waiting := Detect(m, now, delay).0, WaitingKeys(m, now, delay);
    NextLossExists(m, waiting, delay);
    assert forall s <- m'.sent :: s <= m.largestAcked ==> s in waiting && m'.sent[s] == m.sent[s];
    assert forall s <- waiting :: s in m'.sent && s <= m.largestAcked;
  }

  // ----- Sending and re-sending -----

  function Track(m: Manager, p: SentPacket): Manager {
    m.(lastSentSeq := p.sequence, sent := m.sent[p.sequence := p])
  }

  /** Give a packet a fresh sequence and track it under that number, unless it has
      been acknowledged or is a path-MTU probe. */
  function Resend(m: Manager, p: SentPacket, now: int): Option<(Manager, SentPacket)> {
    if p.isAcked || p.probe then None
    else
      var p' := p.(sequence := m.nextSeq, sentTime := now);
      var sent := Drop(m, p).sent;
      Some((m.(nextSeq := m.nextSeq + 1, lastSentSeq := m.nextSeq, sent := sent[m.nextSeq := p']), p'))
  }

  function Drop(m: Manager, p: SentPacket): Manager {
    if p.sequence in m.sent && m.sent[p.sequence].ref == p.ref
    then m.(sent := m.sent - {p.sequence}) else m
  }

  ghost function DataKeys(m: Manager): set<nat> {
    set s | s in m.sent && !m.sent[s].probe
  }

  /** Up to `n` tracked packets that are not probes, lowest sequence first. */
  ghost function Oldest(m: Manager, n: nat): seq<SentPacket> {
    var all := InOrder(m.sent, DataKeys(m));
    if |all| > n then all[..n] else all
  }

  /** The lowest sequences: as many as asked for or as there are, and every other tracked
      data packet is above them all. */
  lemma OldestAreLowest(m: Manager, n: nat)
    requires forall s <- m.sent :: m.sent[s].sequence == s
    ensures var r := Oldest(m, n);
            && |r| == Min(n, |set s | s in m.sent && !m.sent[s].probe|) && Ascending(r)
            && (forall p <- r :: p.sequence in m.sent && m.sent[p.sequence] == p && !p.probe)
            && (forall s <- m.sent :: !m.sent[s].probe && m.sent[s] !in r ==> forall p <- r :: p.sequence < s)
  {
    hide *;
    OldestAscends(m, n);
    OldestAreData(m, n);
    forall s | s in m.sent && !m.sent[s].probe && m.sent[s] !in Oldest(m, n)
      ensures forall p <- Oldest(m, n) :: p.sequence < s
    {
      OldestBelow(m, n, s);
    }
  }

  lemma OldestAscends(m: Manager, n: nat)
    requires forall s <- m.sent :: m.sent[s].sequence == s
    ensures Ascending(Oldest(m, n))
    ensures |Oldest(m, n)| == Min(n, |set s | s in m.sent && !m.sent[s].probe|)
  {
    InOrderSorted(m.sent, DataKeys(m));
    hide InOrder;
    assert DataKeys(m) == set s | s in m.sent && !m.sent[s].probe;
  }

  lemma OldestBelow(m: Manager, n: nat, s: nat)
    requires forall s <- m.sent :: m.sent[s].sequence == s
    requires s in m.sent && !m.sent[s].probe && m.sent[s] !in Oldest(m, n)
    ensures forall p <- Oldest(m, n) :: p.sequence < s
  {
    OldestRest(m, n);
    InOrderSorted(m.sent, DataKeys(m));
    hide *;
    PrefixBelow(InOrder(m.sent, DataKeys(m)), |Oldest(m, n)|, m.sent[s]);
  }

  lemma OldestAllOrFull(m: Manager, n: nat)
    ensures |Oldest(m, n)| < n ==> forall s <- m.sent :: !m.sent[s].probe ==> m.sent[s] in Oldest(m, n)
  {
    OldestRest(m, n);
    hide InOrder;
  }

  lemma OldestAreData(m: Manager, n: nat)
    requires forall s <- m.sent :: m.sent[s].sequence == s
    ensures forall p <- Oldest(m, n) :: p.sequence in m.sent && m.sent[p.sequence] == p && !p.probe
  {
    InOrderMembers(m.sent, DataKeys(m));
    hide InOrder;
    var all := InOrder(m.sent, DataKeys(m));
    forall p | p in Oldest(m, n) ensures p.sequence in m.sent && m.sent[p.sequence] == p && !p.probe {
      assert p in all;
      var k :| k in DataKeys(m) && p == m.sent[k];
    }
  }

  lemma OldestRest(m: Manager, n: nat)
    ensures forall s <- m.sent :: !m.sent[s].probe ==> m.sent[s] in InOrder(m.sent, DataKeys(m))
    ensures Oldest(m, n) == InOrder(m.sent, DataKeys(m))[..|Oldest(m, n)|]
  {
    InOrderMembers(m.sent, DataKeys(m));
    hide InOrder;
  }

  lemma PrefixBelow(all: seq<SentPacket>, k: nat, q: SentPacket)
    requires k <= |all| && Ascending(all) && q in all && q !in all[..k]
    ensures forall p <- all[..k] :: p.sequence < q.sequence
  {
    assert all == all[..k] + all[k..];
    var j :| 0 <= j < |all| - k && all[k..][j] == q;
    assert all[k + j] == q;
  }

  // ----- The manager itself -----

  class PacketManager {
    var nextSeq: nat
    var lastSentSeq: int
    var sentPackets: map<nat, SentPacket>
    var largestAcked: int
    var lastAckTime: Option<int>
    var ackBeforeLoss: Option<int>
    var lossTimer: Option<int>

    ghost function Model(): Manager
      reads this
    {
      Manager(nextSeq, lastSentSeq, sentPackets, largestAcked, lastAckTime, ackBeforeLoss, lossTimer)
    }

    constructor ()
      ensures Model() == Fresh()
    {
      nextSeq, lastSentSeq, sentPackets := 0, -1, map[];
      largestAcked, lastAckTime, ackBeforeLoss, lossTimer := -1, None, None, None;
    }

    method NextSequence() returns (s: nat)
      modifies this
      ensures s == old(nextSeq) == old(Model()).nextSeq
      ensures Model() == old(Model()).(nextSeq := s + 1)
    {
      s := nextSeq;
      nextSeq := nextSeq + 1;
    }

    method SendPacket(p: SentPacket, now: int)
      modifies this
      ensures Model() == Track(old(Model()), p.(sentTime := now))
    {
      lastSentSeq := p.sequence;
      sentPackets := sentPackets[p.sequence := p.(sentTime := now)];
    }

    /** One tracked packet, if there is one under `s`, marked and removed. */
    method Take(s: nat, acked: seq<SentPacket>) returns (r: seq<SentPacket>)
      modifies this`sentPackets
      ensures (sentPackets, r) ==
              if s in old(sentPackets)
              then (old(sentPackets) - {s}, acked + [old(sentPackets)[s].(isAcked := true)])
              else (old(sentPackets), acked)
    {
      r := acked;
      if s in sentPackets {
        r := acked + [sentPackets[s].(isAcked := true)];
        sentPackets := sentPackets - {s};
      }
    }

    /** `n` sequences downward from `hi`, after those in `done`. */
    method TakeDown(hi: int, n: nat, acked: seq<SentPacket>, ghost sent0: map<nat, SentPacket>, ghost done: seq<nat>)
      returns (r: seq<SentPacket>)
      requires (sentPackets, acked) == TakeAll(sent0, done)
      modifies this`sentPackets
      ensures (sentPackets, r) == TakeAll(sent0, done + RangeDown(hi, n))
    {
      r := acked;
      var i := 0;
      ghost var all := RangeDown(hi, n);
      assert done + all[..0] == done;
      while i < n
        invariant 0 <= i <= n
        invariant (sentPackets, r) == TakeAll(sent0, done + all[..i])
      {
        assert (done + all[..i + 1])[..|done| + i] == done + all[..i];
        r := Take((hi - i) % TWO_32, r);
        i := i + 1;
      }
      assert all[..n] == all;
    }

    /** The ranges below the first, walking down from `hi`. */
    method TakeRanges(hi: int, ranges: seq<AckRange>, acked: seq<SentPacket>,
                      ghost sent0: map<nat, SentPacket>, ghost done: seq<nat>)
      returns (r: seq<SentPacket>)
      requires (sentPackets, acked) == TakeAll(sent0, done)
      modifies this`sentPackets
      ensures (sentPackets, r) == TakeAll(sent0, done + ExpandRanges(hi, ranges))
    {
      r := acked;
      var current, k := hi, 0;
      ghost var prefix := done;
      while k < |ranges|
        invariant 0 <= k <= |ranges|
        invariant (sentPackets, r) == TakeAll(sent0, prefix)
        invariant prefix + ExpandRanges(current, ranges[k..]) == done + ExpandRanges(hi, ranges)
      {
        var end := current - ranges[k].gap;
        ghost var here := RangeDown(end, ranges[k].length);
        ghost var below := ExpandRanges(end - ranges[k].length, ranges[k + 1..]);
        assert ExpandRanges(current, ranges[k..]) == here + below by {
          assert ranges[k..][1..] == ranges[k + 1..];
        }
        assert prefix + (here + below) == prefix + here + below;
        r := TakeDown(end, ranges[k].length, r, sent0, prefix);
        prefix := prefix + here;
        current := end - ranges[k].length;
        k := k + 1;
      }
      assert prefix == done + ExpandRanges(hi, ranges);
    }

    method TakeFrame(f: AckFrame) returns (acked: seq<SentPacket>)
      modifies this`sentPackets
      ensures (sentPackets, acked) == TakeAll(old(sentPackets), Expand(f))
    {
      ghost var sent0 := sentPackets;
      ghost var first := RangeDown(f.largestAcked, f.firstLength);
      acked := TakeDown(f.largestAcked, f.firstLength, [], sent0, []);
      assert [] + first == first;
      acked := TakeRanges(f.largestAcked - f.firstLength, f.ranges, acked, sent0, first);
    }

    method HandleAckFrame(f: AckFrame, now: int) returns (acked: seq<SentPacket>)
      modifies this
      ensures (Model(), acked) == HandleAck(old(Model()), f, now)
    {
      acked := TakeFrame(f);
      if |acked| > 0 {
        ackBeforeLoss := lastAckTime;
        lastAckTime := Some(now);
        if f.largestAcked > largestAcked { largestAcked := f.largestAcked; }
      } else {
        TakeNothing(old(sentPackets), Expand(f));
      }
    }

    /** The scan of loss detection: the packets past a threshold, and when the first
        of those still waiting will be. */
    method ScanOutstanding(now: int, delay: int) returns (lost: seq<SentPacket>, nextLoss: Option<int>)
      requires Keyed(Model())
      ensures lost == InOrder(sentPackets, LostKeys(Model(), now, delay))
      ensures EarliestOf(Model(), WaitingKeys(Model(), now, delay), delay, nextLoss)
    {
      lost, nextLoss := CollectLost(now, delay);
      lost := SortBySequence(lost, sentPackets, LostKeys(Model(), now, delay));
    }

    method CollectLost(now: int, delay: int) returns (lost: seq<SentPacket>, nextLoss: Option<int>)
      requires Keyed(Model())
      ensures Collected(sentPackets, LostKeys(Model(), now, delay), lost)
      ensures EarliestOf(Model(), WaitingKeys(Model(), now, delay), delay, nextLoss)
    {
      lost, nextLoss := [], None;
      var keys: set<nat> := sentPackets.Keys;
      ghost var lostKeys: set<nat>, waiting: set<nat> := {}, {};
      while keys != {}
        invariant keys <= sentPackets.Keys
        invariant lostKeys == LostKeys(Model(), now, delay) - keys
        invariant waiting == WaitingKeys(Model(), now, delay) - keys
        invariant Collected(sentPackets, lostKeys, lost)
        invariant EarliestOf(Model(), waiting, delay, nextLoss)
        decreases keys
      {
        var s: nat :| s in keys;
        var p := sentPackets[s];
        if s <= largestAcked {
          if largestAcked - s >= LOSS_REORDER_THRESHOLD || now >= p.sentTime + delay {
            CollectOne(sentPackets, lostKeys, lost, s);
            lost, lostKeys := lost + [p], lostKeys + {s};
          } else {
            var at := p.sentTime + delay;
            EarlierOf(Model(), waiting, delay, nextLoss, s);
            if nextLoss.None? || at < nextLoss.value { nextLoss := Some(at); }
            waiting := waiting + {s};
          }
        }
        keys := keys - {s};
      }
    }

    method ForgetAll(lost: seq<SentPacket>)
      modifies this`sentPackets
      ensures sentPackets == old(sentPackets) - Sequences(lost)
    {
      for i := 0 to |lost|
        invariant sentPackets == old(sentPackets) - Sequences(lost[..i])
      {
        assert lost[..i + 1] == lost[..i] + [lost[i]];
        sentPackets := sentPackets - {lost[i].sequence};
      }
      assert lost[..|lost|] == lost;
    }

    /** Loss detection over everything outstanding. */
    method DetectLostPackets(now: int, delay: int) returns (lost: seq<SentPacket>)
      requires Keyed(Model())
      modifies this
      ensures (Model(), lost) == Detect(old(Model()), now, delay)
    {
      lossTimer := None;
      if largestAcked < 0 { return []; }
      var nextLoss;
      lost, nextLoss := ScanOutstanding(now, delay);
      ghost var m := Model();
      ghost var lostKeys := LostKeys(m, now, delay);
      ForgetAll(lost);
      InOrderSequences(m.sent, lostKeys);
      if nextLoss.Some? {
        var wait := nextLoss.value - now;
        if wait < LOSS_TIMER_GRANULARITY { wait := LOSS_TIMER_GRANULARITY; }
        lossTimer := Some(now + wait);
      }
    }

    method ResendPacket(p: SentPacket, now: int) returns (r: Option<SentPacket>)
      modifies this
      ensures match Resend(old(Model()), p, now)
              case None => r.None? && Model() == old(Model())
              case Some((m, p')) => r == Some(p') && Model() == m
    {
      if p.isAcked || p.probe { return None; }
      DropPacket(p);
      var p' := p.(sequence := nextSeq, sentTime := now);
      sentPackets := sentPackets[nextSeq := p'];
      lastSentSeq := nextSeq;
      nextSeq := nextSeq + 1;
      r := Some(p');
    }

    method DropPacket(p: SentPacket)
      modifies this
      ensures Model() == Drop(old(Model()), p)
    {
      if p.sequence in sentPackets && sentPackets[p.sequence].ref == p.ref {
        sentPackets := sentPackets - {p.sequence};
      }
    }

    method CollectData() returns (all: seq<SentPacket>)
      requires Keyed(Model())
      ensures Collected(sentPackets, DataKeys(Model()), all)
    {
      all := [];
      var keys: set<nat> := sentPackets.Keys;
      ghost var dataKeys: set<nat> := {};
      while keys != {}
        invariant keys <= sentPackets.Keys
        invariant dataKeys == DataKeys(Model()) - keys
        invariant Collected(sentPackets, dataKeys, all)
        decreases keys
      {
        var s: nat :| s in keys;
        if !sentPackets[s].probe {
          CollectOne(sentPackets, dataKeys, all, s);
          all, dataKeys := all + [sentPackets[s]], dataKeys + {s};
        }
        keys := keys - {s};
      }
    }

    /** What a probe timeout re-sends. */
    method OldestUnacked(n: nat) returns (r: seq<SentPacket>)
      requires Keyed(Model())
      ensures r == Oldest(Model(), n)
      ensures |r| <= n && forall s <- sentPackets :: !sentPackets[s].probe && sentPackets[s] !in r ==>
                |r| == n && forall p <- r :: p.sequence < s
    {
      OldestAreLowest(Model(), n);
      OldestAllOrFull(Model(), n);
      var all := CollectData();
      all := SortBySequence(all, sentPackets, DataKeys(Model()));
      r := if |all| > n then all[..n] else all;
    }
  }

  lemma {:induction false} TakeNothing(sent: map<nat, SentPacket>, seqs: seq<nat>)
    requires TakeAll(sent, seqs).1 == []
    ensures TakeAll(sent, seqs).0 == sent
  {
    if seqs != [] { TakeNothing(sent, seqs[..|seqs| - 1]); }
  }

  /** `ps` lists the packets under `keys`, each once, in some order. */
  ghost predicate Collected(sent: map<nat, SentPacket>, keys: set<nat>, ps: seq<SentPacket>) {
    && keys <= sent.Keys
    && (forall p <- ps :: p.sequence in keys && p == sent[p.sequence])
    && (forall k <- keys :: sent[k] in ps)
    && (forall i, j :: 0 <= i < j < |ps| ==> ps[i].sequence != ps[j].sequence)
  }

  lemma CollectOne(sent: map<nat, SentPacket>, keys: set<nat>, ps: seq<SentPacket>, s: nat)
    requires Collected(sent, keys, ps)
    requires s in sent && s !in keys && sent[s].sequence == s
    ensures Collected(sent, keys + {s}, ps + [sent[s]])
  {
  }

  ghost predicate EarliestOf(m: Manager, keys: set<nat>, delay: int, at: Option<int>) {
    match at
    case None => keys == {}
    case Some(t) => IsNextLoss(m, keys, delay, t)
  }

  lemma EarlierOf(m: Manager, keys: set<nat>, delay: int, at: Option<int>, s: nat)
    requires EarliestOf(m, keys, delay, at) && s in m.sent
    ensures var t := m.sent[s].sentTime + delay;
            EarliestOf(m, keys + {s}, delay, if at.None? || t < at.value then Some(t) else at)
  {
    assert s in keys + {s};
    if at.Some? {
      var k :| k in keys && at.value == m.sent[k].sentTime + delay;
      assert k in keys + {s};
    }
  }

  /** The same packets, lowest sequence first. */
  method SortBySequence(ps: seq<SentPacket>, ghost sent: map<nat, SentPacket>, ghost keys: set<nat>)
    returns (r: seq<SentPacket>)
    requires Collected(sent, keys, ps)
    requires forall s <- sent :: sent[s].sequence == s
    ensures r == InOrder(sent, keys)
  {
    r := [];
    for i := 0 to |ps|
      invariant Ascending(r)
      invariant forall p :: p in r <==> p in ps[..i]
    {
      var k := 0;
      while k < |r| && r[k].sequence < ps[i].sequence
        invariant 0 <= k <= |r|
        invariant forall j :: 0 <= j < k ==> r[j].sequence < ps[i].sequence
      {
        k := k + 1;
      }
      assert k < |r| ==> r[k] in ps[..i];
      InsertKeeps(r, k, ps[i]);
      r := r[..k] + [ps[i]] + r[k..];
      assert ps[..i + 1] == ps[..i] + [ps[i]];
    }
    assert ps[..|ps|] == ps;
    InOrderUnique(sent, keys, r);
  }

  lemma InsertKeeps(r: seq<SentPacket>, k: nat, x: SentPacket)
    requires k <= |r| && Ascending(r)
    requires forall j :: 0 <= j < k ==> r[j].sequence < x.sequence
    requires k < |r| ==> x.sequence < r[k].sequence
    ensures var r' := r[..k] + [x] + r[k..]; Ascending(r') && forall p :: p in r' <==> p in r || p == x
  {
    var r' := r[..k] + [x] + r[k..];
    forall i, j | 0 <= i < j < |r'| ensures r'[i].sequence < r'[j].sequence {
      var a, b := if i < k then i else i - 1, if j < k then j else j - 1;
      if i != k && j != k {
        assert r'[i] == r[a] && r'[j] == r[b];
      }
    }
    assert r == r[..k] + r[k..];
  }
}
