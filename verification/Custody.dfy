/** Custody of the data: every byte written is answered for by exactly one packet
    record, tracked or queued for re-sending, until the record is acknowledged. */
module Custody {
  import opened Frames
  import opened Packets
  import opened Sending
  import opened Spans
  import Streams

  /** The part of the connection custody is about. */
  datatype View = View(
    hdr: nat, sent: map<nat, SentPacket>, nextSeq: nat, lastSent: int, largestAcked: int,
    lossTimer: Option<int>, wire: map<nat, Datagram>, probes: map<nat, nat>, nextRef: nat, log: History)

  function ViewOf(c: Conn): View {
    View(c.hdr, c.pm.sent, c.pm.nextSeq, c.pm.lastSentSeq, c.pm.largestAcked,
         c.pm.lossTimer, c.wire, c.probes, c.nextRef, c.log)
  }

  /** The frame's bytes are the stream's at its offset; a FIN ends a finished stream. */
  ghost predicate FrameOk(log: History, stream: nat, f: StreamFrame) {
    && Streams.Within(WrittenOn(log, stream), f.offset, f.data)
    && (f.isFin ==> stream in log.finished && f.End() == |WrittenOn(log, stream)|)
  }

  /** A record that still answers for its bytes. */
  ghost predicate Live(v: View, p: SentPacket) {
    && IsData(p) && !p.isAcked && p.ref < v.nextRef
    && p.ref in v.log.carriers && p.ref !in v.log.acked
    && v.log.carriers[p.ref] == SpanOf(p.streamId, FrameOf(p))
    && FrameOk(v.log, p.streamId, FrameOf(p))
    && p.size == v.hdr + FrameLen(Stream(FrameOf(p))) <= MAX_DATAGRAM_SIZE
  }

  /** The entry under `s`: a probe, or a live record last sent under `s`. */
  ghost predicate Entry(v: View, s: nat)
    requires s in v.sent
  {
    var p := v.sent[s];
    if p.probe then
      && s in v.probes && v.probes[s] == p.size && p.ref < v.nextRef && p.ref !in v.log.carriers && !p.isAcked
      && p.size <= MAX_DATAGRAM_SIZE
    else Live(v, p) && s in v.wire && v.wire[s] == Datagram(p.ref, p.streamId, FrameOf(p))
  }

  ghost predicate TrackedOk(v: View) {
    KeyedIn(v.sent, v.nextSeq) && forall s {:trigger Entry(v, s)} :: s in v.sent ==> Entry(v, s)
  }

  /** `pool` holds live records that are not tracked, each once. */
  ghost predicate PoolOk(v: View, pool: seq<SentPacket>) {
    && (forall p <- pool :: Live(v, p))
    && (forall i, j :: 0 <= i < j < |pool| ==> pool[i].ref != pool[j].ref)
    && (forall s <- v.sent :: v.sent[s].ref !in DataRefs(pool))
  }

  ghost function TrackedRefs(sent: map<nat, SentPacket>): set<nat> {
    set s | s in sent && !sent[s].probe :: sent[s].ref
  }

  /** Every record is acknowledged, tracked or pooled. */
  ghost predicate Placed(v: View, pool: seq<SentPacket>) {
    v.log.carriers.Keys == v.log.acked + TrackedRefs(v.sent) + DataRefs(pool)
  }

  ghost predicate WireOk(v: View) {
    && (forall s <- v.wire :: s < v.nextSeq && v.wire[s].ref < v.nextRef && s !in v.probes
          && FrameOk(v.log, v.wire[s].stream, v.wire[s].frame))
    && (forall s <- v.probes :: s < v.nextSeq)
    && (forall r <- v.log.carriers :: r < v.nextRef && v.log.carriers[r].lo <= v.log.carriers[r].hi
          && v.log.carriers[r].hi <= |WrittenOn(v.log, v.log.carriers[r].stream)|)
    && SpansOk(v.log.carriers, v.wire)
  }

  ghost predicate Complete(log: History) {
    forall stream, b {:trigger Covered(log.carriers, stream, b)} ::
      0 <= b < |WrittenOn(log, stream)| ==> Covered(log.carriers, stream, b)
  }

  ghost predicate InCustody(v: View, pool: seq<SentPacket>) {
    TrackedOk(v) && PoolOk(v, pool) && Placed(v, pool) && WireOk(v) && Complete(v.log)
  }

  // ----- What a step leaves alone -----

  /** Nothing is taken off the wire and no frame becomes wrong. */
  ghost predicate Extends(v: View, v': View) {
    && v'.hdr == v.hdr && v.nextRef <= v'.nextRef && v.nextSeq <= v'.nextSeq
    && (forall s <- v.wire :: s in v'.wire && v'.wire[s] == v.wire[s])
    && (forall s <- v.probes :: s in v'.probes && v'.probes[s] == v.probes[s])
    && (forall t, g :: FrameOk(v.log, t, g) ==> FrameOk(v'.log, t, g))
  }

  /** The step leaves record `r` as it was. */
  ghost predicate Untouched(v: View, v': View, r: nat) {
    && (r in v.log.carriers ==> r in v'.log.carriers && v'.log.carriers[r] == v.log.carriers[r])
    && (r !in v.log.carriers && r < v.nextRef ==> r !in v'.log.carriers)
    && (r !in v.log.acked ==> r !in v'.log.acked)
  }

  lemma LiveKept(v: View, v': View, p: SentPacket)
    requires Extends(v, v') && Live(v, p) && Untouched(v, v', p.ref)
    ensures Live(v', p)
  {
  }

  lemma EntryKept(v: View, v': View, s: nat)
    requires Extends(v, v') && s in v.sent && s in v'.sent && v'.sent[s] == v.sent[s]
    requires Entry(v, s) && Untouched(v, v', v.sent[s].ref)
    ensures Entry(v', s)
  {
    if !v.sent[s].probe { LiveKept(v, v', v.sent[s]); }
  }

  /** Entries that stay, stay in order. */
  lemma KeyedSub(sent: map<nat, SentPacket>, sent': map<nat, SentPacket>, n: nat, n': nat)
    requires KeyedIn(sent, n) && n <= n'
    requires forall s <- sent' :: s in sent && sent'[s] == sent[s]
    ensures KeyedIn(sent', n')
  {
    forall s, t | s in sent' && t in sent' ensures OneEntry(sent', s, t) {
      assert OneEntry(sent, s, t);
    }
  }

  /** What stays tracked and untouched stays well tracked. */
  lemma TrackedSub(v: View, v': View)
    requires TrackedOk(v) && Extends(v, v')
    requires forall s <- v'.sent :: s in v.sent && v'.sent[s] == v.sent[s] && Untouched(v, v', v.sent[s].ref)
    ensures TrackedOk(v')
  {
    hide FrameOk;
    KeyedSub(v.sent, v'.sent, v.nextSeq, v'.nextSeq);
    forall s | s in v'.sent ensures Entry(v', s) {
      assert Entry(v, s);
      EntryKept(v, v', s);
    }
  }

  lemma WireKept(v: View, v': View)
    requires WireOk(v) && Extends(v, v') && v'.wire == v.wire && v'.probes == v.probes
    requires v'.log.carriers == v.log.carriers && v'.log.written == v.log.written
    ensures WireOk(v')
    ensures Complete(v.log) ==> Complete(v'.log)
  {
    hide SpansOk, FrameOk;
    assert forall t :: WrittenOn(v'.log, t) == WrittenOn(v.log, t);
  }

  /** What stays pooled and untouched stays well pooled. */
  lemma PoolKept(v: View, v': View, pool: seq<SentPacket>)
    requires PoolOk(v, pool) && Extends(v, v')
    requires forall r <- DataRefs(pool) :: Untouched(v, v', r)
    requires forall s <- v'.sent :: v'.sent[s].ref !in DataRefs(pool)
    ensures PoolOk(v', pool)
    ensures forall r <- DataRefs(pool) :: r < v.nextRef
  {
    hide FrameOk;
    forall q | q in pool ensures Live(v', q) {
      assert q.ref in DataRefs(pool);
      LiveKept(v, v', q);
    }
  }

  /** A record that is tracked nowhere can be tracked under the next sequence. */
  lemma KeyedPlus(sent: map<nat, SentPacket>, p: SentPacket)
    requires KeyedIn(sent, p.sequence) && forall s <- sent :: sent[s].ref != p.ref
    ensures KeyedIn(sent[p.sequence := p], p.sequence + 1)
  {
    var sent' := sent[p.sequence := p];
    forall s, t | s in sent' && t in sent' ensures OneEntry(sent', s, t) {
      if s in sent && t in sent { assert OneEntry(sent, s, t); }
    }
  }

  lemma RefsPlus(sent: map<nat, SentPacket>, p: SentPacket)
    requires p.sequence !in sent && !p.probe
    ensures TrackedRefs(sent[p.sequence := p]) == TrackedRefs(sent) + {p.ref}
  {
    var sent' := sent[p.sequence := p];
    assert p.sequence in sent' && sent'[p.sequence] == p;
    forall r | r in TrackedRefs(sent) ensures r in TrackedRefs(sent') {
      var s :| s in sent && !sent[s].probe && sent[s].ref == r;
      assert s in sent' && sent'[s] == sent[s];
    }
  }

  lemma RefsMinus(sent: map<nat, SentPacket>, s: nat)
    requires s in sent && !sent[s].probe
    requires forall t <- sent :: sent[t].ref == sent[s].ref ==> t == s
    ensures TrackedRefs(sent - {s}) == TrackedRefs(sent) - {sent[s].ref}
  {
    forall r | r in TrackedRefs(sent) && r != sent[s].ref ensures r in TrackedRefs(sent - {s}) {
      var t :| t in sent && !sent[t].probe && sent[t].ref == r;
      assert t in sent - {s};
    }
  }

  // ----- Sending new data -----

  /** The frame continues its stream, or ends it. */
  ghost predicate Continues(log: History, stream: nat, f: StreamFrame) {
    && f.offset == |WrittenOn(log, stream)|
    && (f.data != [] ==> stream !in log.finished)
    && (f.isFin ==> stream in log.finished)
  }

  /** `v'` is `v` with one new data packet tracked and on the wire. */
  ghost predicate Sends(v: View, v': View, stream: nat, f: StreamFrame, p: SentPacket) {
    && p.ref == v.nextRef && p.sequence == v.nextSeq && !p.isAcked && !p.probe
    && p.frames == [Stream(f)] && p.streamId == stream
    && p.size == v.hdr + FrameLen(Stream(f)) <= MAX_DATAGRAM_SIZE
    && v' == v.(sent := v.sent[p.sequence := p], nextSeq := v.nextSeq + 1, lastSent := v.nextSeq,
                wire := v.wire[p.sequence := Datagram(p.ref, stream, f)], nextRef := v.nextRef + 1,
                log := v.log.(written := v.log.written[stream := WrittenOn(v.log, stream) + f.data],
                              carriers := v.log.carriers[p.ref := SpanOf(stream, f)]))
  }

  lemma SendExtends(v: View, v': View, stream: nat, f: StreamFrame, p: SentPacket)
    requires WireOk(v) && Sends(v, v', stream, f, p) && Continues(v.log, stream, f)
    ensures Extends(v, v') && FrameOk(v'.log, stream, f)
  {
    hide SpansOk;
    forall t, g | FrameOk(v.log, t, g) ensures FrameOk(v'.log, t, g) {
      var w, w' := WrittenOn(v.log, t), WrittenOn(v'.log, t);
      assert w <= w' && (t in v.log.finished ==> w' == w);
    }
  }

  lemma SendTracked(v: View, v': View, pool: seq<SentPacket>, stream: nat, f: StreamFrame, p: SentPacket)
    requires InCustody(v, pool) && Sends(v, v', stream, f, p)
    requires Extends(v, v') && FrameOk(v'.log, stream, f)
    ensures TrackedOk(v')
  {
    hide FrameOk, SpansOk, Complete;
    forall s | s in v.sent ensures v.sent[s].ref < p.ref && Untouched(v, v', v.sent[s].ref) { assert Entry(v, s); }
    KeyedPlus(v.sent, p);
    forall s | s in v'.sent ensures Entry(v', s) {
      if s != p.sequence { assert Entry(v, s); EntryKept(v, v', s); }
    }
  }

  lemma SendPool(v: View, v': View, pool: seq<SentPacket>, stream: nat, f: StreamFrame, p: SentPacket)
    requires InCustody(v, pool) && Sends(v, v', stream, f, p)
    requires Extends(v, v') && FrameOk(v'.log, stream, f)
    ensures PoolOk(v', pool) && Placed(v', pool)
  {
    hide FrameOk, SpansOk, Complete;
    PoolKept(v, v', pool);
    RefsPlus(v.sent, p);
  }

  /** A frame that continues its stream is beyond everything sent before. */
  lemma SendApart(v: View, stream: nat, f: StreamFrame)
    requires WireOk(v) && f.offset == |WrittenOn(v.log, stream)|
    ensures forall q <- v.log.carriers :: !Overlap(v.log.carriers[q], SpanOf(stream, f)) && q < v.nextRef
    ensures forall s <- v.wire ::
              !Overlap(SpanOf(stream, f), v.wire[s].Bytes()) && v.wire[s].ref < v.nextRef && s < v.nextSeq
  {
    hide SpansOk;
  }

  lemma SendSpans(v: View, v': View, stream: nat, f: StreamFrame, p: SentPacket)
    requires WireOk(v) && Sends(v, v', stream, f, p) && Continues(v.log, stream, f)
    ensures SpansOk(v'.log.carriers, v'.wire)
  {
    SendApart(v, stream, f);
    assert SpansOk(v.log.carriers, v.wire);
    hide SpansOk, WireOk, FrameOk, Overlap;
    AddSpan(v.log.carriers, v.wire, p.ref, SpanOf(stream, f));
    SendSpan(v'.log.carriers, v.wire, p.sequence, Datagram(p.ref, stream, f));
  }

  lemma SendWire(v: View, v': View, stream: nat, f: StreamFrame, p: SentPacket)
    requires WireOk(v) && Sends(v, v', stream, f, p) && Continues(v.log, stream, f)
    requires Extends(v, v') && FrameOk(v'.log, stream, f)
    ensures WireOk(v')
  {
    SendSpans(v, v', stream, f, p);
    hide SpansOk;
    assert forall t :: |WrittenOn(v.log, t)| <= |WrittenOn(v'.log, t)|;
  }

  lemma SendComplete(v: View, v': View, stream: nat, f: StreamFrame, p: SentPacket)
    requires WireOk(v) && Complete(v.log) && Sends(v, v', stream, f, p) && Continues(v.log, stream, f)
    ensures Complete(v'.log)
  {
    hide SpansOk, FrameOk;
    var cs, cs' := v.log.carriers, v'.log.carriers;
    forall t, b | 0 <= b < |WrittenOn(v'.log, t)| ensures Covered(cs', t, b) {
      if b < |WrittenOn(v.log, t)| {
        assert Covered(cs, t, b);
        var r :| r in cs && cs[r].stream == t && cs[r].lo <= b < cs[r].hi;
        assert r in cs' && cs'[r] == cs[r];
      } else {
        assert p.ref in cs' && cs'[p.ref] == SpanOf(stream, f);
      }
    }
  }

  /** A new data packet keeps custody. */
  lemma SendKeeps(c: Conn, pool: seq<SentPacket>, stream: nat, f: StreamFrame, paced: bool, now: int)
    requires InCustody(ViewOf(c), pool) && Continues(c.log, stream, f)
    requires PacketSize(c, f) <= MAX_DATAGRAM_SIZE
    ensures InCustody(ViewOf(SendData(c, stream, f, paced, now)), pool)
  {
    var v, v' := ViewOf(c), ViewOf(SendData(c, stream, f, paced, now));
    var p := SentPacket(c.nextRef, c.pm.nextSeq, now, PacketSize(c, f), false, [Stream(f)], stream, false);
    SendExtends(v, v', stream, f, p);
    SendTracked(v, v', pool, stream, f, p);
    SendPool(v, v', pool, stream, f, p);
    SendWire(v, v', stream, f, p);
    SendComplete(v, v', stream, f, p);
  }

  // ----- Leaving the map: acknowledged, or lost -----

  ghost function RefsAt(sent: map<nat, SentPacket>, keys: set<nat>): set<nat> {
    set s | s in sent && s in keys && !sent[s].probe :: sent[s].ref
  }

  lemma RefsWithout(sent: map<nat, SentPacket>, keys: set<nat>, n: nat)
    requires KeyedIn(sent, n)
    ensures TrackedRefs(sent - keys) == TrackedRefs(sent) - RefsAt(sent, keys)
    ensures forall s <- sent - keys :: sent[s].ref !in RefsAt(sent, keys)
  {
    forall s | s in sent - keys ensures sent[s].ref !in RefsAt(sent, keys) {
      if t :| t in sent && t in keys && sent[t].ref == sent[s].ref { assert OneEntry(sent, s, t); }
    }
    forall r | r in TrackedRefs(sent) - RefsAt(sent, keys) ensures r in TrackedRefs(sent - keys) {
      var s :| s in sent && !sent[s].probe && sent[s].ref == r;
      assert s in sent - keys;
    }
  }

  /** Acknowledged records leave the map and need no carrier any more. */
  lemma AckedLeave(v: View, v': View, pool: seq<SentPacket>, keys: set<nat>)
    requires InCustody(v, pool)
    requires v' == v.(sent := v.sent - keys, largestAcked := v'.largestAcked,
                      log := v.log.(acked := v.log.acked + RefsAt(v.sent, keys)))
    ensures InCustody(v', pool)
  {
    assert forall t, g :: FrameOk(v.log, t, g) ==> FrameOk(v'.log, t, g);
    hide FrameOk;
    WireKept(v, v');
    hide WireOk, Complete;
    RefsWithout(v.sent, keys, v.nextSeq);
    TrackedSub(v, v');
    assert DataRefs(pool) !! RefsAt(v.sent, keys);
    PoolKept(v, v', pool);
  }

  /** What leaving the map keeps. */
  lemma Leaves(v: View, v': View, pool: seq<SentPacket>, keys: set<nat>)
    requires InCustody(v, pool) && v' == v.(sent := v.sent - keys, lossTimer := v'.lossTimer)
    ensures Extends(v, v') && TrackedOk(v') && WireOk(v') && Complete(v'.log)
    ensures forall s <- v'.sent :: v'.sent[s].ref !in RefsAt(v.sent, keys)
    ensures TrackedRefs(v'.sent) == TrackedRefs(v.sent) - RefsAt(v.sent, keys)
    ensures PoolOk(v', pool) && DataRefs(pool) !! RefsAt(v.sent, keys)
  {
    hide FrameOk;
    WireKept(v, v');
    hide WireOk, Complete;
    RefsWithout(v.sent, keys, v.nextSeq);
    TrackedSub(v, v');
    PoolKept(v, v', pool);
  }

  /** Lost records leave the map for the pool. */
  lemma LostLeave(v: View, v': View, pool: seq<SentPacket>, keys: set<nat>, lost: seq<SentPacket>)
    requires InCustody(v, pool) && v' == v.(sent := v.sent - keys, lossTimer := v'.lossTimer)
    requires forall p <- lost :: p.sequence in keys && p.sequence in v.sent && p == v.sent[p.sequence] && !p.probe
    requires forall s :: s in keys && s in v.sent && !v.sent[s].probe ==> v.sent[s] in lost
    requires forall i, j :: 0 <= i < j < |lost| ==> lost[i].sequence < lost[j].sequence
    ensures InCustody(v', pool + lost)
  {
    hide FrameOk, WireOk, Complete, TrackedOk, Extends, PoolOk, DataRefs, RefsAt, TrackedRefs;
    Leaves(v, v', pool, keys);
    LostRefs(v.sent, keys, lost);
    TrackedKeys(v.sent, keys);
    LostPooled(v, v', lost);
    PoolConcat(v', pool, lost);
    Regrouped(v.log.carriers.Keys, v.log.acked, TrackedRefs(v.sent), DataRefs(pool), RefsAt(v.sent, keys));
  }

  lemma TrackedKeys(sent: map<nat, SentPacket>, keys: set<nat>)
    ensures RefsAt(sent, keys) <= TrackedRefs(sent)
  {
  }

  lemma Regrouped(all: set<nat>, acked: set<nat>, tracked: set<nat>, pooled: set<nat>, moved: set<nat>)
    requires all == acked + tracked + pooled && moved <= tracked
    ensures all == acked + (tracked - moved) + (pooled + moved)
  {
  }

  lemma LostRefs(sent: map<nat, SentPacket>, keys: set<nat>, lost: seq<SentPacket>)
    requires forall p <- lost :: p.sequence in keys && p.sequence in sent && p == sent[p.sequence] && !p.probe
    requires forall s :: s in keys && s in sent && !sent[s].probe ==> sent[s] in lost
    ensures DataRefs(lost) == RefsAt(sent, keys)
  {
  }

  lemma LostPooled(v: View, v': View, lost: seq<SentPacket>)
    requires TrackedOk(v) && v' == v.(sent := v'.sent, lossTimer := v'.lossTimer)
    requires forall p <- lost :: p.sequence in v.sent && p == v.sent[p.sequence] && !p.probe
    requires forall i, j :: 0 <= i < j < |lost| ==> lost[i].sequence < lost[j].sequence
    requires forall s <- v'.sent :: v'.sent[s].ref !in DataRefs(lost)
    ensures PoolOk(v', lost)
  {
    hide FrameOk;
    forall p | p in lost ensures Live(v', p) {
      assert Entry(v, p.sequence);
      LiveKept(v, v', p);
    }
    forall i, j | 0 <= i < j < |lost| ensures lost[i].ref != lost[j].ref {
      assert lost[i] in lost && lost[j] in lost;
      assert OneEntry(v.sent, lost[i].sequence, lost[j].sequence);
    }
  }

  // ----- Re-sending under a fresh sequence -----

  /** `v'` is `v` with record `p` taken out of wherever it was, then tracked and sent
      under the next sequence; `base` is what else is tracked. */
  ghost predicate Resends(v: View, v': View, p: SentPacket, base: map<nat, SentPacket>, now: int) {
    && IsData(p)
    && v' == v.(sent := base[v.nextSeq := p.(sequence := v.nextSeq, sentTime := now)],
                nextSeq := v.nextSeq + 1, lastSent := v.nextSeq,
                wire := v.wire[v.nextSeq := Datagram(p.ref, p.streamId, FrameOf(p))])
  }

  /** Everything tracked except record `p`. */
  ghost predicate AllBut(sent: map<nat, SentPacket>, base: map<nat, SentPacket>, p: SentPacket) {
    && (forall s <- base :: s in sent && base[s] == sent[s] && base[s].ref != p.ref)
    && (forall s <- sent :: s in base || sent[s].ref == p.ref)
  }

  lemma ResendTracked(v: View, v': View, p: SentPacket, base: map<nat, SentPacket>, now: int)
    requires TrackedOk(v) && WireOk(v) && Live(v, p) && AllBut(v.sent, base, p) && Resends(v, v', p, base, now)
    ensures Extends(v, v') && TrackedOk(v')
  {
    hide SpansOk, FrameOk;
    var p' := p.(sequence := v.nextSeq, sentTime := now);
    KeyedSub(v.sent, base, v.nextSeq, v.nextSeq);
    KeyedPlus(base, p');
    LiveKept(v, v', p);
    forall s | s in v'.sent ensures Entry(v', s) {
      if s != v.nextSeq { assert Entry(v, s); EntryKept(v, v', s); }
    }
  }

  lemma ResendWire(v: View, v': View, p: SentPacket, base: map<nat, SentPacket>, now: int)
    requires WireOk(v) && Live(v, p) && Resends(v, v', p, base, now)
    ensures WireOk(v')
  {
    var d := Datagram(p.ref, p.streamId, FrameOf(p));
    SendSpan(v.log.carriers, v.wire, v.nextSeq, d);
    hide SpansOk;
  }

  lemma ResendRefs(v: View, v': View, p: SentPacket, base: map<nat, SentPacket>, now: int)
    requires Live(v, p) && Resends(v, v', p, base, now) && AllBut(v.sent, base, p) && v.nextSeq !in base
    ensures TrackedRefs(v'.sent) == TrackedRefs(v.sent) + {p.ref}
    ensures forall s <- v'.sent :: v'.sent[s].ref == p.ref || (s in v.sent && v'.sent[s] == v.sent[s])
  {
    hide FrameOk;
    RefsPlus(base, p.(sequence := v.nextSeq, sentTime := now));
    forall r | r in TrackedRefs(v.sent) && r != p.ref ensures r in TrackedRefs(base) {
      var s :| s in v.sent && !v.sent[s].probe && v.sent[s].ref == r;
      assert s in base;
    }
  }

  /** A tracked record goes out again: a probe timeout. */
  lemma ResendFromMap(v: View, v': View, pool: seq<SentPacket>, p: SentPacket, now: int)
    requires InCustody(v, pool) && p.sequence in v.sent && v.sent[p.sequence] == p && !p.probe
    requires Resends(v, v', p, v.sent - {p.sequence}, now)
    ensures InCustody(v', pool)
  {
    hide SpansOk, FrameOk, Complete;
    var base := v.sent - {p.sequence};
    assert Entry(v, p.sequence);
    forall s | s in base ensures base[s].ref != p.ref { assert OneEntry(v.sent, s, p.sequence); }
    ResendTracked(v, v', p, base, now);
    ResendWire(v, v', p, base, now);
    ResendRefs(v, v', p, base, now);
    assert p.ref in TrackedRefs(v.sent);
    PoolKept(v, v', pool);
  }

  /** The head of the pool goes out. */
  lemma ResendFromPool(v: View, v': View, p: SentPacket, rest: seq<SentPacket>, now: int)
    requires InCustody(v, [p] + rest) && Resends(v, v', p, v.sent, now)
    ensures InCustody(v', rest)
  {
    hide SpansOk, FrameOk, Complete;
    var pool := [p] + rest;
    assert pool[0] in pool && p.ref in DataRefs(pool);
    assert AllBut(v.sent, v.sent, p);
    ResendTracked(v, v', p, v.sent, now);
    ResendWire(v, v', p, v.sent, now);
    ResendRefs(v, v', p, v.sent, now);
    PoolTail(v, p, rest);
    PoolKept(v, v', rest);
  }

  lemma PoolTail(v: View, p: SentPacket, rest: seq<SentPacket>)
    requires PoolOk(v, [p] + rest)
    ensures PoolOk(v, rest) && DataRefs([p] + rest) == DataRefs(rest) + {p.ref} && p.ref !in DataRefs(rest)
  {
    hide FrameOk;
    var pool := [p] + rest;
    assert forall i :: 0 <= i < |rest| ==> rest[i] == pool[i + 1];
    assert p == pool[0] && p in pool;
    forall q | q in rest ensures q in pool && q.ref != p.ref {
      var i :| 0 <= i < |rest| && rest[i] == q;
      assert pool[i + 1] == q;
    }
  }

  // ----- Re-chunking -----

  lemma PieceAt(c: Conn, p: SentPacket, i: nat)
    requires MustSplit(c, p) && i < |PieceFrames(c, p)|
    ensures var q, f := Pieces(c, p)[i], PieceFrames(c, p)[i];
            && IsData(q) && !q.isAcked && FrameOf(q) == f && q.ref == c.nextRef + i && q.streamId == p.streamId
            && q.size == PacketSize(c, f) && q in Pieces(c, p)
            && q.ref in PieceSpans(c, p) && PieceSpans(c, p)[q.ref] == SpanOf(p.streamId, f)
  {
  }

  /** Each piece carries its slice of the stream; only the last can end it. */
  lemma PieceFrameOk(c: Conn, p: SentPacket, i: nat)
    requires MustSplit(c, p) && i < |PieceFrames(c, p)| && FrameOk(c.log, p.streamId, FrameOf(p))
    ensures FrameOk(c.log, p.streamId, PieceFrames(c, p)[i])
    ensures Inside(SpanOf(p.streamId, PieceFrames(c, p)[i]), SpanOf(p.streamId, FrameOf(p)))
  {
    var f, fs, w := FrameOf(p), PieceFrames(c, p), WrittenOn(c.log, p.streamId);
    Streams.ChunksCut(f.offset, f.data, PieceSize(c), f.isSyn, f.isFin);
    var g := fs[i];
    assert g in fs;
    Streams.SliceWithin(w, f.offset, f.data, PieceSize(c), g);
  }

  lemma PiecesSeparate(c: Conn, p: SentPacket)
    requires MustSplit(c, p)
    ensures var ps := PieceSpans(c, p);
            forall j, k {:trigger Separate(ps, j, k)} :: j in ps && k in ps ==> Separate(ps, j, k)
  {
    hide *;
    PiecesCarryAll(c, p);
    OneStream(c, p);
    var f, fs, ps := FrameOf(p), PieceFrames(c, p), PieceSpans(c, p);
    forall j, k | j in ps && k in ps ensures Separate(ps, j, k) {
      PieceSpanAt(c, p, j);
      PieceSpanAt(c, p, k);
      var a, b := j - c.nextRef, k - c.nextRef;
      if a < b { Streams.ChainOrdered(fs, f.offset, f.End(), a, b); }
      if b < a { Streams.ChainOrdered(fs, f.offset, f.End(), b, a); }
      InOrderSeparate(ps, j, k);
    }
  }

  lemma OneStream(c: Conn, p: SentPacket)
    requires MustSplit(c, p)
    ensures |p.frames| == 1 && p.frames[0].Stream?
  {
  }

  lemma PieceSpanAt(c: Conn, p: SentPacket, j: nat)
    requires MustSplit(c, p) && j in PieceSpans(c, p)
    ensures var fs := PieceFrames(c, p);
            && c.nextRef <= j < c.nextRef + |fs|
            && PieceSpans(c, p)[j] == Span(p.streamId, fs[j - c.nextRef].offset, fs[j - c.nextRef].End())
  {
    hide PieceFrames, MustSplit;
  }

  lemma InOrderSeparate(ps: map<nat, Span>, j: nat, k: nat)
    requires j in ps && k in ps && (j < k ==> ps[j].hi <= ps[k].lo) && (k < j ==> ps[k].hi <= ps[j].lo)
    ensures Separate(ps, j, k)
  {
  }

  /** The view after record `p` was dropped for its pieces. */
  ghost predicate Splits(c: Conn, v': View, p: SentPacket, base: map<nat, SentPacket>) {
    && MustSplit(c, p)
    && v' == ViewOf(c).(sent := base, nextRef := c.nextRef + |PieceFrames(c, p)|,
                        log := c.log.(carriers := c.log.carriers - {p.ref} + PieceSpans(c, p),
                            unbooked := v'.log.unbooked))
  }

  lemma SplitUntouched(c: Conn, v': View, p: SentPacket, base: map<nat, SentPacket>)
    requires Splits(c, v', p, base) && WireOk(ViewOf(c))
    ensures Extends(ViewOf(c), v')
    ensures forall r: nat :: r < c.nextRef && r != p.ref ==> Untouched(ViewOf(c), v', r)
  {
    assert forall t, g :: FrameOk(c.log, t, g) ==> FrameOk(v'.log, t, g);
    assert forall r <- PieceSpans(c, p) :: r >= c.nextRef;
  }

  lemma PieceLive(c: Conn, v': View, p: SentPacket, base: map<nat, SentPacket>, i: nat)
    requires Splits(c, v', p, base) && Live(ViewOf(c), p) && i < |PieceFrames(c, p)|
    requires c.mtu.current <= MAX_DATAGRAM_SIZE && forall r <- c.log.acked :: r < c.nextRef
    ensures Live(v', Pieces(c, p)[i])
  {
    PiecesFit(c, p);
    PieceAt(c, p, i);
    PieceFrameOk(c, p, i);
    hide Pieces, PieceFrames, PieceSpans;
  }

  lemma PieceRefs(c: Conn, p: SentPacket)
    requires MustSplit(c, p)
    ensures forall i, j :: 0 <= i < j < |Pieces(c, p)| ==> Pieces(c, p)[i].ref != Pieces(c, p)[j].ref
    ensures DataRefs(Pieces(c, p)) == PieceSpans(c, p).Keys
    ensures forall q <- Pieces(c, p) :: q.ref >= c.nextRef
  {
    var ps := Pieces(c, p);
    forall r | r in PieceSpans(c, p) ensures r in DataRefs(ps) {
      PieceAt(c, p, r - c.nextRef);
    }
    forall q | q in ps ensures q.ref >= c.nextRef && q.ref in PieceSpans(c, p) {
      var i :| 0 <= i < |ps| && ps[i] == q;
      PieceAt(c, p, i);
    }
  }

  lemma SplitWire(c: Conn, v': View, p: SentPacket, base: map<nat, SentPacket>)
    requires Splits(c, v', p, base) && WireOk(ViewOf(c)) && Live(ViewOf(c), p)
    ensures WireOk(v')
  {
    var ps := PieceSpans(c, p);
    forall k | k in ps ensures Inside(ps[k], c.log.carriers[p.ref]) {
      PieceFrameOk(c, p, k - c.nextRef);
    }
    PiecesSeparate(c, p);
    SplitSpan(c.log.carriers, c.wire, p.ref, ps);
    hide SpansOk;
    SplitUntouched(c, v', p, base);
  }

  lemma SplitComplete(c: Conn, v': View, p: SentPacket, base: map<nat, SentPacket>)
    requires Splits(c, v', p, base) && WireOk(ViewOf(c)) && Live(ViewOf(c), p) && Complete(c.log)
    ensures Complete(v'.log)
  {
    hide SpansOk, FrameOk;
    var f, cs, cs' := FrameOf(p), c.log.carriers, v'.log.carriers;
    Streams.ChunksCut(f.offset, f.data, PieceSize(c), f.isSyn, f.isFin);
    forall t, b | 0 <= b < |WrittenOn(v'.log, t)| ensures Covered(cs', t, b) {
      assert Covered(cs, t, b);
      var r :| r in cs && cs[r].stream == t && cs[r].lo <= b < cs[r].hi;
      if r == p.ref {
        var i := Streams.ChainCovers(PieceFrames(c, p), f.offset, f.End(), b);
        PieceAt(c, p, i);
        assert c.nextRef + i in cs';
      } else {
        assert r in cs' && cs'[r] == cs[r];
      }
    }
  }

  /** Pieces take a record's place, wherever the record was: `others` are the pooled
      records besides it. */
  lemma SplitKeeps(c: Conn, v': View, p: SentPacket, base: map<nat, SentPacket>, pool: seq<SentPacket>,
                   others: seq<SentPacket>)
    requires InCustody(ViewOf(c), pool) && Live(ViewOf(c), p) && c.mtu.current <= MAX_DATAGRAM_SIZE
    requires Splits(c, v', p, base) && AllBut(c.pm.sent, base, p)
    requires PoolOk(ViewOf(c), others) && p.ref !in DataRefs(others)
    requires TrackedRefs(base) + DataRefs(others) + {p.ref} == TrackedRefs(c.pm.sent) + DataRefs(pool)
    requires p.ref !in TrackedRefs(base)
    ensures InCustody(v', Pieces(c, p) + others)
  {
    var v := ViewOf(c);
    SplitUntouched(c, v', p, base);
    SplitWire(c, v', p, base);
    SplitComplete(c, v', p, base);
    hide SpansOk, FrameOk, Complete, PieceSpans, PieceFrames, Pieces;
    forall s | s in base ensures base[s].ref < c.nextRef { assert Entry(v, s); }
    TrackedSub(v, v');
    SplitPool(c, v', p, base, pool, others);
  }

  lemma SplitPool(c: Conn, v': View, p: SentPacket, base: map<nat, SentPacket>, pool: seq<SentPacket>,
                  others: seq<SentPacket>)
    requires InCustody(ViewOf(c), pool) && Live(ViewOf(c), p) && c.mtu.current <= MAX_DATAGRAM_SIZE
    requires Splits(c, v', p, base) && AllBut(c.pm.sent, base, p)
    requires Extends(ViewOf(c), v') && forall r: nat :: r < c.nextRef && r != p.ref ==> Untouched(ViewOf(c), v', r)
    requires PoolOk(ViewOf(c), others) && p.ref !in DataRefs(others)
    requires TrackedRefs(base) + DataRefs(others) + {p.ref} == TrackedRefs(c.pm.sent) + DataRefs(pool)
    requires p.ref !in TrackedRefs(base)
    ensures PoolOk(v', Pieces(c, p) + others) && Placed(v', Pieces(c, p) + others)
  {
    var v, cs := ViewOf(c), c.log.carriers;
    PieceRefs(c, p);
    PiecesPooled(c, v', p, base, pool);
    PoolRefs(v, others);
    assert v'.log.carriers.Keys == cs.Keys - {p.ref} + PieceSpans(c, p).Keys;
    assert PieceSpans(c, p).Keys !! DataRefs(others);
    hide SpansOk, FrameOk, Complete, PieceFrames, Pieces, PieceSpans, Extends, TrackedRefs, DataRefs;
    PoolKept(v, v', others);
    PoolConcat(v', Pieces(c, p), others);
    SwapOne(cs.Keys, c.log.acked, TrackedRefs(c.pm.sent) + DataRefs(pool), TrackedRefs(base), DataRefs(others),
            p.ref, DataRefs(Pieces(c, p)));
  }

  lemma SwapOne(all: set<nat>, acked: set<nat>, live: set<nat>, base: set<nat>, others: set<nat>, r: nat,
                pieces: set<nat>)
    requires all == acked + live && base + others + {r} == live && r !in acked && r !in base && r !in others
    ensures all - {r} + pieces == acked + base + (pieces + others)
  {
  }

  lemma PoolRefs(v: View, pool: seq<SentPacket>)
    requires PoolOk(v, pool)
    ensures forall r <- DataRefs(pool) :: r < v.nextRef
  {
  }

  lemma PiecesPooled(c: Conn, v': View, p: SentPacket, base: map<nat, SentPacket>, pool: seq<SentPacket>)
    requires InCustody(ViewOf(c), pool) && Live(ViewOf(c), p) && c.mtu.current <= MAX_DATAGRAM_SIZE
    requires Splits(c, v', p, base) && AllBut(c.pm.sent, base, p)
    ensures PoolOk(v', Pieces(c, p))
  {
    var v, ps := ViewOf(c), Pieces(c, p);
    PieceRefs(c, p);
    hide SpansOk, FrameOk, Complete, PieceFrames, PieceSpans;
    forall q | q in ps ensures Live(v', q) {
      var i :| 0 <= i < |ps| && ps[i] == q;
      PieceLive(c, v', p, base, i);
    }
    hide Live;
    forall s | s in base ensures base[s].ref < c.nextRef { EntryRef(v, s); }
  }

  lemma EntryRef(v: View, s: nat)
    requires TrackedOk(v) && s in v.sent
    ensures v.sent[s].ref < v.nextRef
  {
    assert Entry(v, s);
  }

  lemma PoolConcat(v: View, a: seq<SentPacket>, b: seq<SentPacket>)
    requires PoolOk(v, a) && PoolOk(v, b) && DataRefs(a) !! DataRefs(b)
    ensures PoolOk(v, a + b) && DataRefs(a + b) == DataRefs(a) + DataRefs(b)
  {
    hide FrameOk;
    assert DataRefs(a + b) == DataRefs(a) + DataRefs(b);
    var all := a + b;
    forall i, j | 0 <= i < j < |all| ensures all[i].ref != all[j].ref {
      if i < |a| <= j {
        assert all[i] in a && all[j] in b;
        assert all[i].ref in DataRefs(a) && all[j].ref in DataRefs(b);
      }
    }
  }

  // ----- How a connection moves on -----

  /** Nothing sent is unsent, nothing written is unwritten, and a record's bytes never
      change: it is acknowledged, or given up for its pieces, but not revived. Whatever
      comes to be tracked does so under a sequence not used before, and the last sequence
      sent stays the one before the next. */
  ghost predicate Grows(v: View, v': View) {
    && v.nextRef <= v'.nextRef && v.nextSeq <= v'.nextSeq
    && (v.lastSent == v.nextSeq - 1 ==> v'.lastSent == v'.nextSeq - 1)
    && (forall s <- v'.sent :: s in v.sent || s >= v.nextSeq)
    && (forall s <- v.wire :: s in v'.wire && v'.wire[s] == v.wire[s])
    && (forall s <- v.probes :: s in v'.probes && v'.probes[s] == v.probes[s])
    && (forall t :: WrittenOn(v.log, t) <= WrittenOn(v'.log, t))
    && v.log.finished <= v'.log.finished
    && (forall t <- v.log.finished :: WrittenOn(v'.log, t) == WrittenOn(v.log, t))
    && (forall r <- v'.log.carriers :: r < v.nextRef ==>
          r in v.log.carriers && v'.log.carriers[r] == v.log.carriers[r])
  }

  /** A step that acknowledges nothing. */
  ghost predicate Proceeds(v: View, v': View) {
    Grows(v, v') && v'.log.acked == v.log.acked && v'.largestAcked == v.largestAcked
  }

  /** ... and looks for no losses. */
  ghost predicate Onward(v: View, v': View) { Proceeds(v, v') && v'.lossTimer == v.lossTimer }

  lemma OnwardRefl(v: View)
    ensures Onward(v, v)
  {
  }

  lemma GrowsTrans(a: View, b: View, c: View)
    requires Grows(a, b) && Grows(b, c)
    ensures Grows(a, c)
  {
    forall t ensures WrittenOn(a.log, t) <= WrittenOn(c.log, t) {
      assert WrittenOn(a.log, t) <= WrittenOn(b.log, t) <= WrittenOn(c.log, t);
    }
  }

  lemma ProceedsTrans(a: View, b: View, c: View)
    requires Proceeds(a, b) && Proceeds(b, c)
    ensures Proceeds(a, c)
  {
    GrowsTrans(a, b, c);
  }

  lemma OnwardTrans(a: View, b: View, c: View)
    requires Onward(a, b) && Onward(b, c)
    ensures Onward(a, c)
  {
    GrowsTrans(a, b, c);
  }

  lemma OnwardSend(v: View, v': View, pool: seq<SentPacket>, stream: nat, f: StreamFrame, p: SentPacket)
    requires InCustody(v, pool) && Sends(v, v', stream, f, p) && Continues(v.log, stream, f)
    ensures Onward(v, v')
  {
    hide SpansOk, FrameOk, Complete, TrackedOk, PoolOk, Placed;
  }

  lemma OnwardResend(v: View, v': View, pool: seq<SentPacket>, p: SentPacket, base: map<nat, SentPacket>, now: int)
    requires InCustody(v, pool) && Resends(v, v', p, base, now) && base.Keys <= v.sent.Keys
    ensures Onward(v, v')
  {
    hide SpansOk, FrameOk, Complete, TrackedOk, PoolOk, Placed;
  }

  lemma OnwardSplit(c: Conn, v': View, p: SentPacket, base: map<nat, SentPacket>)
    requires Splits(c, v', p, base) && base.Keys <= c.pm.sent.Keys
    ensures Onward(ViewOf(c), v')
  {
    assert forall r <- PieceSpans(c, p) :: r >= c.nextRef;
  }
}
