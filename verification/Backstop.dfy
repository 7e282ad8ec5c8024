/** The receiver's backstop on out-of-order bytes is never hit by a peer that keeps to
    its limits and re-cuts nothing: one cut of the stream leaves the held chunks apart,
    so they fit the window, and the window is well below the cap. */
module Backstop {
  import opened Frames
  import opened Sending
  import opened Spans
  import opened Custody
  import opened EndToEnd
  import FlowControl
  import AckTracker
  import Reassembly
  import Runs
  import Streams

  /** The limit the receiver last advertised for a stream. */
  function Limit(w: World, stream: nat): int {
    if stream in w.streams then w.streams[stream].fc.lastAdvertised else FlowControl.INITIAL_WINDOW
  }

  /** Nothing is written beyond it. */
  ghost predicate InLimits(w: World) { forall t: nat :: |Written(w.snd, t)| <= Limit(w, t) }

  /** No packet sent was ever given up for smaller ones. */
  ghost predicate Unsplit(c: Conn) { forall s <- c.wire :: c.wire[s].ref in c.log.carriers }

  /** Then none had been before. */
  lemma UnsplitBefore(c: Conn, c': Conn)
    requires WireOk(ViewOf(c)) && Grows(ViewOf(c), ViewOf(c')) && Unsplit(c')
    ensures Unsplit(c)
  {
    hide SpansOk, FrameOk;
    forall s | s in c.wire ensures c.wire[s].ref in c.log.carriers { assert s in c'.wire; }
  }

  /** Of what was sent unsplit, two datagrams carry the same bytes or none in common. */
  lemma SameOrApart(c: Conn, x: nat, y: nat)
    requires SpansOk(c.log.carriers, c.wire) && Unsplit(c) && x in c.wire && y in c.wire
    ensures c.wire[x].Bytes() == c.wire[y].Bytes() || !Overlap(c.wire[x].Bytes(), c.wire[y].Bytes())
  {
    var cs := c.log.carriers;
    assert Whole(cs, c.wire, c.wire[x].ref, x) && Whole(cs, c.wire, c.wire[y].ref, y);
    assert Separate(cs, c.wire[x].ref, c.wire[y].ref);
  }

  // ----- One stream -----

  /** The receiver's window is the one flow control keeps. */
  predicate WindowOk(l: FlowControl.Limits) {
    && 0 <= l.dataConsumed && 0 <= l.recvWindow <= FlowControl.MAX_WINDOW
    && l.lastAdvertised <= l.dataConsumed + l.recvWindow
  }

  ghost predicate Guarded(s: Streams.Inbound) { !s.violation && Reassembly.Exact(s) && WindowOk(s.fc) }

  /** A frame of the stream finds its slot taken or meets no held chunk. */
  lemma MeetsNothing(c: Conn, s: Streams.Inbound, x: nat)
    requires SpansOk(c.log.carriers, c.wire) && Unsplit(c) && x in c.wire && c.wire[x].frame.data != []
    requires AllFromWire(c.wire, c.wire[x].stream, s) && Reassembly.Exact(s)
    ensures var f := c.wire[x].frame; f.offset in s.ooo || Reassembly.MeetsNone(s, f.offset, f.End())
  {
    var f := c.wire[x].frame;
    hide SpansOk, Unsplit;
    forall k | k in s.ooo && k != f.offset ensures f.End() <= k || k + |s.ooo[k]| <= f.offset {
      assert FromWire(c.wire, c.wire[x].stream, k, s.ooo[k]);
      var y :| y in c.wire && c.wire[y].stream == c.wire[x].stream && c.wire[y].frame.offset == k
               && c.wire[y].frame.data == s.ooo[k];
      SameOrApart(c, x, y);
    }
  }

  /** Chunks apart fit between what is delivered and what is written, so the next one is
      let in. */
  lemma LetIn(s: Streams.Inbound, read: seq<byte>, w: seq<byte>, offset: nat, data: seq<byte>)
    requires Guarded(s) && Streams.Accounted(s) && Streams.Faithful(s, read, w) && |w| <= s.fc.lastAdvertised
    requires Streams.Within(w, offset, data) && data != []
    requires offset in s.ooo || Reassembly.MeetsNone(s, offset, offset + |data|)
    ensures !Streams.Place(s, offset, data).0.violation
  {
    if offset <= s.offset < offset + |data| {
      Streams.ReleaseGrows(Streams.Append(s, offset, data));
    } else if offset > s.offset && offset !in s.ooo {
      Reassembly.HoldExact(s, offset, data);
      var m := s.ooo[offset := data];
      Streams.TotalWith(s.ooo, offset, data);
      hide Streams.Total;
      Reassembly.ChunksFit(m, s.offset, |w|);
    }
    hide Streams.Release, Streams.Total;
  }

  lemma ArrivesGuarded(c: Conn, read: seq<byte>, s: Streams.Inbound, x: nat)
    requires WireOk(ViewOf(c)) && Unsplit(c) && x in c.wire && StreamOk(c, read, c.wire[x].stream, s)
    requires Guarded(s) && |Written(c, c.wire[x].stream)| <= s.fc.lastAdvertised
    ensures Guarded(Streams.DeliverFrame(s, c.wire[x].frame))
  {
    var d := c.wire[x];
    var f, s' := d.frame, Streams.DeliverFrame(s, d.frame);
    assert FrameOk(c.log, d.stream, f) && SpansOk(c.log.carriers, c.wire);
    hide *;
    StreamParts(c, read, d.stream, s);
    Booking(s, f);
    if f.data != [] {
      GuardedIs(s);
      FrameWithin(c, d.stream, f);
      MeetsNothing(c, s, x);
      LetIn(s, read, Written(c, d.stream), f.offset, f.data);
      Reassembly.ExactUnlessMet(s, f.offset, f.data);
    }
    Placed(s, f);
  }

  lemma StreamParts(c: Conn, read: seq<byte>, stream: nat, s: Streams.Inbound)
    requires StreamOk(c, read, stream, s) && Guarded(s)
    ensures Streams.Accounted(s) && Streams.Faithful(s, read, Written(c, stream)) && AllFromWire(c.wire, stream, s)
  {
    hide Streams.Accounted, Streams.Faithful, AllFromWire, Streams.Tidy, Streams.Drained;
  }

  lemma GuardedIs(s: Streams.Inbound)
    requires Guarded(s)
    ensures Reassembly.Exact(s) && !s.violation
  {
  }

  lemma FrameWithin(c: Conn, stream: nat, f: StreamFrame)
    requires FrameOk(c.log, stream, f)
    ensures Streams.Within(Written(c, stream), f.offset, f.data)
    ensures f.End() == f.offset + |f.data|
  {
  }

  /** A frame only adds to what was received. */
  lemma Booking(s: Streams.Inbound, f: StreamFrame)
    ensures var s' := Streams.DeliverFrame(s, f);
            !s'.violation ==> s'.fc == s.fc.(dataRecvd := s'.fc.dataRecvd)
  {
    Streams.DeliverBooks(s, f);
    hide Streams.DeliverFrame, Streams.Place;
  }

  lemma Placed(s: Streams.Inbound, f: StreamFrame)
    requires Guarded(s)
    requires f.data != [] ==> var p := Streams.Place(s, f.offset, f.data).0; !p.violation && Reassembly.Exact(p)
    requires var s' := Streams.DeliverFrame(s, f); !s'.violation ==> s'.fc == s.fc.(dataRecvd := s'.fc.dataRecvd)
    ensures Guarded(Streams.DeliverFrame(s, f))
  {
    Streams.DeliverPlaces(s, f);
    hide Streams.DeliverFrame, Streams.Place;
  }

  lemma ReadGuarded(s: Streams.Inbound, max: nat)
    requires Guarded(s)
    ensures Guarded(Streams.Read(s, max).0)
  {
  }

  lemma CloseGuarded(s: Streams.Inbound)
    requires Guarded(s)
    ensures Guarded(Streams.Close(s))
  {
  }

  lemma NewGuarded()
    ensures Guarded(Streams.NewInbound(Streams.Open))
    ensures Streams.NewInbound(Streams.Open).fc.lastAdvertised == FlowControl.INITIAL_WINDOW
  {
  }

  // ----- The world -----

  ghost predicate AllGuarded(w: World) { forall t <- w.streams :: Guarded(w.streams[t]) }

  lemma DataGuarded(w: World, x: nat)
    requires WorldOk(w) && AllGuarded(w) && InLimits(w) && Unsplit(w.snd) && x in w.snd.wire
    ensures AllGuarded(w.(arrived := w.arrived + {x}, streams := Delivered(w.streams, w.snd.wire[x])))
  {
    var d := w.snd.wire[x];
    LimitOf(w, d);
    hide *;
    WorldParts(w);
    RestWire(w.snd);
    DeliveredIs(w.streams, d);
    if Target(w.streams, d).Some? {
      TargetOk(w, d);
      ArrivesGuarded(w.snd, ReadOn(w, d.stream), Target(w.streams, d).value, x);
      OneMore(w, w.streams[d.stream := Streams.DeliverFrame(Target(w.streams, d).value, d.frame)], d.stream);
    }
    SameStreams(w, w.(arrived := w.arrived + {x}, streams := Delivered(w.streams, d)), Delivered(w.streams, d));
  }

  lemma LimitOf(w: World, d: Datagram)
    requires AllGuarded(w) && InLimits(w)
    ensures Target(w.streams, d).Some? ==>
            var s := Target(w.streams, d).value; Guarded(s) && |Written(w.snd, d.stream)| <= s.fc.lastAdvertised
  {
    NewGuarded();
    assert |Written(w.snd, d.stream)| <= Limit(w, d.stream);
    hide Guarded;
  }

  lemma OneMore(w: World, streams: map<nat, Streams.Inbound>, t: nat)
    requires AllGuarded(w) && t in streams && streams == w.streams[t := streams[t]] && Guarded(streams[t])
    ensures forall u <- streams :: Guarded(streams[u])
  {
    hide Guarded;
  }

  lemma SameStreams(w: World, w': World, streams: map<nat, Streams.Inbound>)
    requires w'.streams == streams
    ensures AllGuarded(w') <==> forall u <- streams :: Guarded(streams[u])
    ensures AllGuarded(w) <==> forall u <- w.streams :: Guarded(w.streams[u])
  {
    hide Guarded;
  }

  lemma EventGuarded(w: World, e: Event)
    requires WorldOk(w) && AllGuarded(w) && InLimits(w) && Unsplit(w.snd) && Possible(w, e)
    ensures AllGuarded(Apply(w, e))
  {
    hide WorldOk, InLimits, Unsplit, Guarded, Runs.Apply, HandleAckFrame, Delivered, Streams.Close, Streams.Read;
    hide AckTracker.ExactDownToLowest;
    match e
    case DataArrives(x) => DataGuarded(w, x);
    case Reads(stream, max) => ReadGuarded(w.streams[stream], max);
    case PeerCloses(stream) => CloseGuarded(w.streams[stream]);
    case _ =>
  }

  /** The sender's state only moves on. */
  lemma SenderGrows(w: World, e: Event)
    requires WorldOk(w) && Possible(w, e)
    ensures Grows(ViewOf(w.snd), ViewOf(Apply(w, e).snd))
  {
    OnwardRefl(ViewOf(w.snd));
    WorldParts(w);
    hide WorldOk, SenderOk, ReceiverOk, Runs.Rest, Grows, Runs.Apply, HandleAckFrame, Delivered, Streams.Read;
    hide Streams.Close;
    hide AckTracker.ExactDownToLowest;
    match e
    case Sender(step) => Runs.StepRests(w.snd, step);
    case AckArrives(f, now, target) => Runs.AckRests(w.snd, f, now, target);
    case _ =>
  }
}
