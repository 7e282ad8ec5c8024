/** Two peers and the network between them. The sender's half is a connection as in
    `Runs`; the receiver records arrivals, re-assembles streams and prints ACKs. The
    network may lose, repeat and reorder datagrams in both directions but not forge
    them: anything ever put on the wire may arrive at any later time, any number of
    times, or never. */
module EndToEnd {
  import opened Frames
  import opened Packets
  import opened Sending
  import opened Spans
  import opened Custody
  import opened Recovery
  import Runs
  import AckTracker
  import Streams

  datatype World = World(
    snd: Conn, arrived: set<nat>, streams: map<nat, Streams.Inbound>, read: map<nat, seq<byte>>, acks: set<AckFrame>)

  datatype Event =
    | Sender(step: Runs.Step)
    | AckArrives(frame: AckFrame, at: int, target: int)
    | DataArrives(sequence: nat)
    | ProbeArrives(sequence: nat)
    | AckSent(frame: AckFrame)
    | Reads(stream: nat, max: nat)
    | PeerCloses(stream: nat)

  function Start(hdr: nat): World { World(NewConn(hdr), {}, map[], map[], {}) }

  function ReadOn(w: World, stream: nat): seq<byte> { if stream in w.read then w.read[stream] else [] }

  ghost predicate Possible(w: World, e: Event) {
    match e
    case Sender(step) => !step.Acks? && Runs.Possible(w.snd, step)
    case AckArrives(f, _, _) => f in w.acks
    case DataArrives(s) => s in w.snd.wire
    case ProbeArrives(s) => s in w.snd.probes && s != 0
    case AckSent(f) => AckTracker.ExactDownToLowest(f, w.arrived)
    case Reads(stream, _) => stream in w.streams
    case PeerCloses(stream) => stream in w.streams
  }

  /** The stream a frame is for: SYN or data opens a new one, a bare FIN does not. */
  function Target(streams: map<nat, Streams.Inbound>, d: Datagram): Option<Streams.Inbound> {
    if d.stream in streams then Some(streams[d.stream])
    else if d.frame.isSyn || d.frame.data != [] then Some(Streams.NewInbound(Streams.Open))
    else None
  }

  function Delivered(streams: map<nat, Streams.Inbound>, d: Datagram): map<nat, Streams.Inbound> {
    match Target(streams, d)
    case None => streams
    case Some(s) => streams[d.stream := Streams.DeliverFrame(s, d.frame)]
  }

  function ReadStep(w: World, stream: nat, max: nat): World
    requires stream in w.streams
  {
    var (s, r, _) := Streams.Read(w.streams[stream], max);
    w.(streams := w.streams[stream := s],
       read := w.read[stream := if r.Bytes? then ReadOn(w, stream) + r.data else ReadOn(w, stream)])
  }

  ghost function Apply(w: World, e: Event): World
    requires Possible(w, e)
  {
    match e
    case Sender(step) => w.(snd := Runs.Apply(w.snd, step))
    case AckArrives(f, now, target) => w.(snd := HandleAckFrame(w.snd, f, now, target))
    case DataArrives(s) => w.(arrived := w.arrived + {s}, streams := Delivered(w.streams, w.snd.wire[s]))
    case ProbeArrives(s) => w.(arrived := w.arrived + {s})
    case AckSent(f) => w.(acks := w.acks + {f})
    case Reads(stream, max) => ReadStep(w, stream, max)
    case PeerCloses(stream) => w.(streams := w.streams[stream := Streams.Close(w.streams[stream])])
  }

  ghost function Run(w: World, events: seq<Event>): World {
    if events == [] then w
    else
      var w1, e := Run(w, events[..|events| - 1]), events[|events| - 1];
      if Possible(w1, e) then Apply(w1, e) else w1
  }

  // ----- What always holds -----

  ghost predicate FromWire(wire: map<nat, Datagram>, stream: nat, k: nat, data: seq<byte>) {
    exists s :: s in wire && wire[s].stream == stream && wire[s].frame.offset == k && wire[s].frame.data == data
  }

  ghost predicate AllFromWire(wire: map<nat, Datagram>, stream: nat, s: Streams.Inbound) {
    forall k <- s.ooo :: FromWire(wire, stream, k, s.ooo[k])
  }

  /** The receiving end of one stream, against what its peer wrote. */
  ghost predicate StreamOk(c: Conn, read: seq<byte>, stream: nat, s: Streams.Inbound) {
    && Streams.Faithful(s, read, Written(c, stream))
    && Streams.Tidy(s) && Streams.Drained(s) && AllFromWire(c.wire, stream, s)
    && (s.finSeen ==> stream in c.log.finished && s.finalSize == |Written(c, stream)|)
    && (!s.violation ==> Streams.FinExact(s) && Streams.Accounted(s) && !s.phase.Reset?)
  }

  /** Every byte of the span is held, unless the stream hit the backstop. */
  ghost predicate Held(streams: map<nat, Streams.Inbound>, a: Span) {
    a.lo < a.hi ==>
      && a.stream in streams
      && (streams[a.stream].violation || forall b: nat :: a.lo <= b < a.hi ==> Streams.Holds(streams[a.stream], b))
  }

  /** What has arrived for a record that still answers for its bytes is held. */
  ghost predicate ArrivedHeld(c: Conn, streams: map<nat, Streams.Inbound>, s: nat) {
    s in c.wire && c.wire[s].ref in c.log.carriers ==> Held(streams, c.wire[s].Bytes())
  }

  /** A sequence under which the record went out has arrived. */
  ghost predicate Reached(c: Conn, arrived: set<nat>, r: nat) {
    exists s :: s in arrived && s in c.wire && c.wire[s].ref == r
  }

  ghost predicate AckOk(arrived: set<nat>, f: AckFrame) {
    f.largestAcked in Expand(f) && forall s <- Expand(f) :: s in arrived
  }

  ghost predicate SenderOk(w: World) {
    && Runs.Rest(w.snd) && Runs.Informed(ViewOf(w.snd))
    && (forall s <- w.arrived :: s in w.snd.wire || s in w.snd.probes)
    && (forall f <- w.acks :: AckOk(w.arrived, f))
    && (forall r <- w.snd.log.acked :: Reached(w.snd, w.arrived, r))
  }

  ghost predicate ReceiverOk(w: World) {
    && w.read.Keys <= w.streams.Keys
    && (forall t <- w.streams :: StreamOk(w.snd, ReadOn(w, t), t, w.streams[t]))
    && (forall s <- w.arrived :: ArrivedHeld(w.snd, w.streams, s))
  }

  ghost predicate WorldOk(w: World) { SenderOk(w) && ReceiverOk(w) }

  // ----- The sender moves on -----

  lemma StreamMore(c: Conn, c': Conn, read: seq<byte>, stream: nat, s: Streams.Inbound)
    requires StreamOk(c, read, stream, s) && Grows(ViewOf(c), ViewOf(c'))
    ensures StreamOk(c', read, stream, s)
  {
    Streams.FaithfulMore(s, read, Written(c, stream), Written(c', stream));
    forall k | k in s.ooo ensures FromWire(c'.wire, stream, k, s.ooo[k]) {
      assert FromWire(c.wire, stream, k, s.ooo[k]);
      var x :| x in c.wire && c.wire[x].stream == stream && c.wire[x].frame.offset == k
          && c.wire[x].frame.data == s.ooo[k];
      assert x in c'.wire && c'.wire[x] == c.wire[x];
    }
    hide Streams.Faithful, Streams.Tidy, Streams.Drained, Streams.FinExact, Streams.Accounted;
  }

  lemma ArrivedMore(c: Conn, c': Conn, streams: map<nat, Streams.Inbound>, s: nat)
    requires WireOk(ViewOf(c)) && WireOk(ViewOf(c')) && Grows(ViewOf(c), ViewOf(c'))
    requires (s in c.wire || s in c.probes) && ArrivedHeld(c, streams, s)
    ensures ArrivedHeld(c', streams, s)
  {
    hide Held, SpansOk, FrameOk;
  }

  lemma RestWire(c: Conn)
    requires Runs.Rest(c)
    ensures WireOk(ViewOf(c)) && TrackedOk(ViewOf(c)) && InCustody(ViewOf(c), c.queue)
  {
  }

  lemma SenderMoves(w: World, c': Conn)
    requires WorldOk(w) && Runs.Rest(c') && Runs.Informed(ViewOf(c')) && Grows(ViewOf(w.snd), ViewOf(c'))
    requires forall r <- c'.log.acked :: r in w.snd.log.acked || Reached(w.snd, w.arrived, r)
    ensures WorldOk(w.(snd := c'))
  {
    hide *;
    var w' := w.(snd := c');
    WorldParts(w);
    WorldParts(w');
    RestWire(w.snd);
    RestWire(c');
    SenderFollows(w, c');
    ReceiverFollows(w, c');
  }

  lemma SenderFollows(w: World, c': Conn)
    requires SenderOk(w) && Runs.Rest(c') && Runs.Informed(ViewOf(c')) && Grows(ViewOf(w.snd), ViewOf(c'))
    requires forall r <- c'.log.acked :: r in w.snd.log.acked || Reached(w.snd, w.arrived, r)
    ensures SenderOk(w.(snd := c'))
  {
    hide Runs.Rest, AckOk, Runs.Informed;
    forall r | r in c'.log.acked ensures Reached(c', w.arrived, r) {
      assert Reached(w.snd, w.arrived, r);
      var s :| s in w.arrived && s in w.snd.wire && w.snd.wire[s].ref == r;
      assert s in c'.wire && c'.wire[s].ref == r;
    }
  }

  lemma ReceiverFollows(w: World, c': Conn)
    requires SenderOk(w) && ReceiverOk(w) && Grows(ViewOf(w.snd), ViewOf(c'))
    requires WireOk(ViewOf(w.snd)) && WireOk(ViewOf(c'))
    ensures ReceiverOk(w.(snd := c'))
  {
    var w' := w.(snd := c');
    assert forall s <- w.arrived :: s in w.snd.wire || s in w.snd.probes by { hide Runs.Rest, Runs.Informed; }
    hide *;
    ReceiverIs(w);
    ReceiverIs(w');
    forall t | t in w.streams ensures StreamOk(c', ReadOn(w', t), t, w.streams[t]) {
      SameRead(w, w', t);
      StreamMore(w.snd, c', ReadOn(w, t), t, w.streams[t]);
    }
    forall s | s in w.arrived ensures ArrivedHeld(c', w.streams, s) {
      ArrivedMore(w.snd, c', w.streams, s);
    }
  }

  lemma SenderStepOk(w: World, step: Runs.Step)
    requires WorldOk(w) && !step.Acks? && Runs.Possible(w.snd, step)
    ensures WorldOk(w.(snd := Runs.Apply(w.snd, step)))
  {
    var c' := Runs.Apply(w.snd, step);
    hide Runs.Rest, Runs.Informed, Runs.Apply, ReceiverOk, Grows;
    Runs.StepRests(w.snd, step);
    Runs.StepInformed(w.snd, step);
    SenderMoves(w, c');
  }

  /** An ACK that arrives was printed from arrivals, so it names only what was sent, and
      every record it acknowledges has arrived. */
  lemma AckArrivesOk(w: World, f: AckFrame, now: int, target: int)
    requires WorldOk(w) && f in w.acks
    ensures WorldOk(w.(snd := HandleAckFrame(w.snd, f, now, target)))
  {
    hide *;
    var c := w.snd;
    AckHonest(w, f);
    Runs.AckRests(c, f, now, target);
    AckIsAStep(c, f, now, target);
    Runs.StepInformed(c, Runs.Acks(f, now, target));
    forall r | r in DataRefs(HandleAck(c.pm, f, now).1) ensures Reached(c, w.arrived, r) {
      AckedArrived(c, w.arrived, f, now, r);
    }
    SenderMoves(w, HandleAckFrame(c, f, now, target));
  }

  lemma AckIsAStep(c: Conn, f: AckFrame, now: int, target: int)
    ensures Runs.Possible(c, Runs.Acks(f, now, target))
    ensures Runs.Apply(c, Runs.Acks(f, now, target)) == HandleAckFrame(c, f, now, target)
  {
    hide HandleAckFrame;
  }

  lemma AckHonest(w: World, f: AckFrame)
    requires WorldOk(w) && f in w.acks
    ensures Runs.HonestAck(w.snd, f) && AckOk(w.arrived, f)
    ensures Runs.Rest(w.snd) && Runs.Informed(ViewOf(w.snd)) && TrackedOk(ViewOf(w.snd))
  {
    hide ReceiverOk, Runs.Informed;
    RestWire(w.snd);
    hide Runs.Rest, Expand, TrackedOk, InCustody, SpansOk, FrameOk;
  }

  lemma AckedArrived(c: Conn, arrived: set<nat>, f: AckFrame, now: int, r: nat)
    requires TrackedOk(ViewOf(c)) && AckOk(arrived, f) && r in DataRefs(HandleAck(c.pm, f, now).1)
    ensures Reached(c, arrived, r)
  {
    TakeAllIsExact(c.pm.sent, Expand(f));
    hide Expand;
    var p :| p in HandleAck(c.pm, f, now).1 && !p.probe && p.ref == r;
    var s :| s in c.pm.sent && s in Expand(f) && p == c.pm.sent[s].(isAcked := true);
    assert Entry(ViewOf(c), s);
  }

  // ----- A datagram arrives -----

  /** Held chunks are whole frames once sent, and frames ever sent are nested or apart. */
  lemma FrameFits(c: Conn, s: Streams.Inbound, x: nat)
    requires SpansOk(c.log.carriers, c.wire) && x in c.wire && AllFromWire(c.wire, c.wire[x].stream, s)
    requires Streams.Tidy(s) && c.wire[x].frame.data != []
    ensures var f := c.wire[x].frame; Streams.Fits(s, f.offset, f.End())
  {
    var d := c.wire[x];
    forall k | k in s.ooo ensures Streams.Laminar(k, k + |s.ooo[k]|, d.frame.offset, d.frame.End()) {
      assert FromWire(c.wire, d.stream, k, s.ooo[k]);
      var y :| y in c.wire && c.wire[y].stream == d.stream && c.wire[y].frame.offset == k
          && c.wire[y].frame.data == s.ooo[k];
      assert Nested(c.wire, y, x);
    }
  }

  /** A record's frame never finds its slot taken by a shorter one. */
  lemma SlotFits(c: Conn, s: Streams.Inbound, x: nat)
    requires SpansOk(c.log.carriers, c.wire) && x in c.wire && AllFromWire(c.wire, c.wire[x].stream, s)
    requires Streams.Tidy(s) && c.wire[x].ref in c.log.carriers && c.wire[x].frame.data != []
    ensures var f := c.wire[x].frame; f.offset in s.ooo ==> |s.ooo[f.offset]| >= |f.data|
  {
    var d := c.wire[x];
    var k := d.frame.offset;
    if k in s.ooo {
      assert FromWire(c.wire, d.stream, k, s.ooo[k]);
      var y :| y in c.wire && c.wire[y].stream == d.stream && c.wire[y].frame.offset == k
          && c.wire[y].frame.data == s.ooo[k];
      assert Whole(c.log.carriers, c.wire, d.ref, x);
      assert Whole(c.log.carriers, c.wire, d.ref, y);
    }
  }

  /** What delivering a frame of the wire does to its stream. */
  ghost predicate Receives(s: Streams.Inbound, f: StreamFrame, s': Streams.Inbound) {
    && Streams.Tidy(s') && Streams.Drained(s')
    && (s.violation ==> s'.violation)
    && (forall k <- s'.ooo :: (k in s.ooo && s'.ooo[k] == s.ooo[k]) || (k == f.offset && s'.ooo[k] == f.data))
    && (forall b: nat :: Streams.Holds(s, b) ==> Streams.Holds(s', b))
  }

  lemma FrameReceived(c: Conn, s: Streams.Inbound, x: nat)
    requires SpansOk(c.log.carriers, c.wire) && x in c.wire && AllFromWire(c.wire, c.wire[x].stream, s)
    requires Streams.Tidy(s) && Streams.Drained(s)
    ensures var f := c.wire[x].frame; var s' := Streams.DeliverFrame(s, f);
            && Receives(s, f, s')
            && (c.wire[x].ref in c.log.carriers && !s'.violation ==>
                  forall b: nat :: f.offset <= b < f.End() ==> Streams.Holds(s', b))
  {
    var f := c.wire[x].frame;
    var s' := Streams.DeliverFrame(s, f);
    Streams.DeliverPlaces(s, f);
    Streams.StaysViolated(s, f);
    if f.data == [] {
      SameHeld(s, s');
    } else {
      var p := Streams.Place(s, f.offset, f.data).0;
      FrameFits(c, s, x);
      Streams.PlaceKeeps(s, f.offset, f.data);
      if c.wire[x].ref in c.log.carriers {
        SlotFits(c, s, x);
        if !p.violation { Streams.PlaceDelivers(s, f.offset, f.data); }
      }
      hide Streams.DeliverFrame, Streams.Place, SpansOk;
      SameHeld(p, s');
    }
  }

  lemma SameHeld(s: Streams.Inbound, s': Streams.Inbound)
    requires s'.ooo == s.ooo && s'.offset == s.offset
    ensures Streams.Tidy(s) ==> Streams.Tidy(s')
    ensures Streams.Drained(s) ==> Streams.Drained(s')
    ensures forall b: nat :: Streams.Holds(s, b) <==> Streams.Holds(s', b)
  {
  }

  lemma NewStreamOk(c: Conn, stream: nat)
    ensures StreamOk(c, [], stream, Streams.NewInbound(Streams.Open))
  {
    Streams.NoneHeld();
    hide Streams.Total;
  }

  /** The stream a datagram belongs to stays right. */
  lemma StreamReceives(c: Conn, read: seq<byte>, s: Streams.Inbound, x: nat)
    requires WireOk(ViewOf(c)) && x in c.wire && StreamOk(c, read, c.wire[x].stream, s)
    ensures StreamOk(c, read, c.wire[x].stream, Streams.DeliverFrame(s, c.wire[x].frame))
  {
    var d := c.wire[x];
    var f, s' := d.frame, Streams.DeliverFrame(s, d.frame);
    assert FrameOk(c.log, d.stream, f);
    FrameReceived(c, s, x);
    Streams.DeliverFaithful(s, f, read, Written(c, d.stream));
    if !s'.violation {
      Streams.DeliverFinExact(s, f);
      Streams.DeliverAccounts(s, f);
    }
    FinRecorded(s, f);
    hide Streams.DeliverFrame, Streams.Faithful, Streams.Accounted, Streams.FinExact, Streams.Tidy;
    hide Streams.Drained, SpansOk;
    forall k | k in s'.ooo ensures FromWire(c.wire, d.stream, k, s'.ooo[k]) {
      if !(k in s.ooo && s'.ooo[k] == s.ooo[k]) { assert x in c.wire && d.frame.data == s'.ooo[k]; }
    }
  }

  lemma FinRecorded(s: Streams.Inbound, f: StreamFrame)
    ensures var s' := Streams.DeliverFrame(s, f);
            if f.isFin then s'.finSeen && s'.finalSize == f.End()
            else s'.finSeen == s.finSeen && s'.finalSize == s.finalSize
  {
    if f.offset <= s.offset < f.End() { Streams.ReleaseGrows(Streams.Append(s, f.offset, f.data)); }
    hide Streams.Release;
  }

  lemma StillHeld(streams: map<nat, Streams.Inbound>, t: nat, f: StreamFrame, s: Streams.Inbound,
                  s': Streams.Inbound, a: Span)
    requires Held(streams, a) && Receives(s, f, s') && (t in streams ==> s == streams[t])
    ensures Held(streams[t := s'], a)
  {
    hide Streams.Tidy, Streams.Drained, Streams.Holds;
  }

  lemma SenderKept(w: World, w': World, x: nat)
    requires SenderOk(w) && w'.snd == w.snd && w'.acks == w.acks && w'.arrived == w.arrived + {x}
    requires x in w.snd.wire || x in w.snd.probes
    ensures SenderOk(w')
  {
    hide Runs.Rest, Runs.Informed, Expand;
    forall r | r in w.snd.log.acked ensures Reached(w'.snd, w'.arrived, r) {
      assert Reached(w.snd, w.arrived, r);
      var s :| s in w.arrived && s in w.snd.wire && w.snd.wire[s].ref == r;
      assert s in w'.arrived;
    }
  }

  lemma StreamAt(w: World, t: nat)
    requires WorldOk(w)
    ensures w.read.Keys <= w.streams.Keys
    ensures t in w.streams ==> StreamOk(w.snd, ReadOn(w, t), t, w.streams[t])
  {
    hide SenderOk, StreamOk;
  }

  lemma TargetOk(w: World, d: Datagram)
    requires WorldOk(w) && Target(w.streams, d).Some?
    ensures var s := Target(w.streams, d).value;
            StreamOk(w.snd, ReadOn(w, d.stream), d.stream, s) && (d.stream in w.streams ==> s == w.streams[d.stream])
  {
    NewStreamOk(w.snd, d.stream);
    StreamAt(w, d.stream);
    hide WorldOk, StreamOk;
  }

  lemma Arrives(c: Conn, read: seq<byte>, s: Streams.Inbound, x: nat)
    requires WireOk(ViewOf(c)) && x in c.wire && StreamOk(c, read, c.wire[x].stream, s)
    ensures var f := c.wire[x].frame; var s' := Streams.DeliverFrame(s, f);
            && StreamOk(c, read, c.wire[x].stream, s') && Receives(s, f, s')
            && (c.wire[x].ref in c.log.carriers && !s'.violation ==>
                  forall b: nat :: f.offset <= b < f.End() ==> Streams.Holds(s', b))
  {
    StreamReceives(c, read, s, x);
    hide Streams.DeliverFrame, Streams.Faithful, Streams.FinExact, Streams.Accounted, SpansOk, FrameOk, Receives;
    FrameReceived(c, s, x);
  }

  lemma WorldParts(w: World)
    ensures WorldOk(w) <==> SenderOk(w) && ReceiverOk(w)
    ensures SenderOk(w) ==> Runs.Rest(w.snd)
  {
  }

  lemma DataArrivesOk(w: World, x: nat)
    requires WorldOk(w) && x in w.snd.wire
    ensures WorldOk(w.(arrived := w.arrived + {x}, streams := Delivered(w.streams, w.snd.wire[x])))
  {
    var d := w.snd.wire[x];
    var w' := w.(arrived := w.arrived + {x}, streams := Delivered(w.streams, d));
    hide *;
    WorldParts(w);
    WorldParts(w');
    RestWire(w.snd);
    SenderKept(w, w', x);
    DeliveredIs(w.streams, d);
    if Target(w.streams, d).Some? {
      var s := Target(w.streams, d).value;
      TargetOk(w, d);
      Arrives(w.snd, ReadOn(w, d.stream), s, x);
      DeliveredOk(w, w', x, s, Streams.DeliverFrame(s, d.frame));
    } else {
      Ignored(w, w', x);
    }
  }

  lemma DeliveredIs(streams: map<nat, Streams.Inbound>, d: Datagram)
    ensures match Target(streams, d)
            case None => d.frame.data == [] && Delivered(streams, d) == streams
            case Some(s) => Delivered(streams, d) == streams[d.stream := Streams.DeliverFrame(s, d.frame)]
  {
    hide Streams.DeliverFrame;
  }

  lemma Ignored(w: World, w': World, x: nat)
    requires ReceiverOk(w) && w' == w.(arrived := w.arrived + {x}) && x in w.snd.wire && w.snd.wire[x].frame.data == []
    ensures ReceiverOk(w')
  {
    hide StreamOk;
    assert forall t :: ReadOn(w', t) == ReadOn(w, t);
  }

  lemma DeliveredOk(w: World, w': World, x: nat, s: Streams.Inbound, s': Streams.Inbound)
    requires ReceiverOk(w) && x in w.snd.wire
    requires w' == w.(arrived := w.arrived + {x}, streams := w.streams[w.snd.wire[x].stream := s'])
    requires StreamOk(w.snd, ReadOn(w, w.snd.wire[x].stream), w.snd.wire[x].stream, s')
    requires Receives(s, w.snd.wire[x].frame, s')
    requires w.snd.wire[x].stream in w.streams ==> s == w.streams[w.snd.wire[x].stream]
    requires w.snd.wire[x].ref in w.snd.log.carriers && !s'.violation ==>
               forall b: nat :: w.snd.wire[x].frame.offset <= b < w.snd.wire[x].frame.End() ==> Streams.Holds(s', b)
    ensures ReceiverOk(w')
  {
    hide *;
    var c, d := w.snd, w.snd.wire[x];
    ReceiverIs(w);
    ReceiverIs(w');
    NewlyHeld(c, w'.streams, x, s');
    forall t | t in w'.streams ensures StreamOk(c, ReadOn(w', t), t, w'.streams[t]) { SameRead(w, w', t); }
    forall y | y in w'.arrived ensures ArrivedHeld(c, w'.streams, y) {
      if y in w.arrived { ArrivedStill(c, w.streams, d.stream, d.frame, s, s', y); }
    }
  }

  lemma ReceiverIs(w: World)
    ensures ReceiverOk(w) <==>
            && w.read.Keys <= w.streams.Keys
            && (forall t <- w.streams :: StreamOk(w.snd, ReadOn(w, t), t, w.streams[t]))
            && (forall s <- w.arrived :: ArrivedHeld(w.snd, w.streams, s))
  {
    hide StreamOk, ArrivedHeld;
  }

  lemma SameRead(w: World, w': World, t: nat)
    requires w'.read == w.read
    ensures ReadOn(w', t) == ReadOn(w, t)
  {
  }

  lemma NewlyHeld(c: Conn, streams: map<nat, Streams.Inbound>, x: nat, s: Streams.Inbound)
    requires x in c.wire && c.wire[x].stream in streams && streams[c.wire[x].stream] == s
    requires c.wire[x].ref in c.log.carriers && !s.violation ==>
               forall b: nat :: c.wire[x].frame.offset <= b < c.wire[x].frame.End() ==> Streams.Holds(s, b)
    ensures ArrivedHeld(c, streams, x)
  {
    hide Streams.Holds;
  }

  lemma ArrivedStill(c: Conn, streams: map<nat, Streams.Inbound>, t: nat, f: StreamFrame, s: Streams.Inbound,
                     s': Streams.Inbound, y: nat)
    requires ArrivedHeld(c, streams, y) && Receives(s, f, s') && (t in streams ==> s == streams[t])
    ensures ArrivedHeld(c, streams[t := s'], y)
  {
    hide Held, Receives;
    if y in c.wire && c.wire[y].ref in c.log.carriers { StillHeld(streams, t, f, s, s', c.wire[y].Bytes()); }
  }

  // ----- The receiver's other steps -----

  lemma ProbeArrivesOk(w: World, x: nat)
    requires WorldOk(w) && x in w.snd.probes
    ensures WorldOk(w.(arrived := w.arrived + {x}))
  {
    var w' := w.(arrived := w.arrived + {x});
    hide *;
    WorldParts(w);
    WorldParts(w');
    SenderKept(w, w', x);
    RestWire(w.snd);
    NotOnWire(w.snd, x);
    NothingDelivered(w, w', x);
  }

  lemma NotOnWire(c: Conn, x: nat)
    requires WireOk(ViewOf(c)) && x in c.probes
    ensures x !in c.wire
  {
    hide SpansOk, FrameOk;
  }

  lemma NothingDelivered(w: World, w': World, x: nat)
    requires ReceiverOk(w) && w' == w.(arrived := w.arrived + {x}) && x !in w.snd.wire
    ensures ReceiverOk(w')
  {
    hide StreamOk;
    assert forall t :: ReadOn(w', t) == ReadOn(w, t);
  }

  lemma AckSentOk(w: World, f: AckFrame)
    requires WorldOk(w) && AckTracker.ExactDownToLowest(f, w.arrived)
    ensures WorldOk(w.(acks := w.acks + {f}))
  {
    hide Runs.Rest, Runs.Informed, StreamOk, ArrivedHeld, Expand;
    assert forall t :: ReadOn(w.(acks := w.acks + {f}), t) == ReadOn(w, t);
  }

  /** A stream replaced by one that holds the same bytes. */
  lemma StreamReplaced(w: World, w': World, t: nat)
    requires WorldOk(w) && t in w.streams && t in w'.streams
    requires w'.snd == w.snd && w'.arrived == w.arrived && w'.acks == w.acks
    requires w'.streams == w.streams[t := w'.streams[t]] && w'.read.Keys <= w'.streams.Keys
    requires forall u :: u != t ==> ReadOn(w', u) == ReadOn(w, u)
    requires w'.streams[t].ooo == w.streams[t].ooo && w'.streams[t].offset == w.streams[t].offset
    requires w'.streams[t].violation == w.streams[t].violation
    requires StreamOk(w.snd, ReadOn(w', t), t, w'.streams[t])
    ensures WorldOk(w')
  {
    hide Runs.Rest, Runs.Informed, StreamOk;
    SameHeld(w.streams[t], w'.streams[t]);
    assert SenderOk(w') by { hide ReceiverOk; }
    hide SenderOk, Streams.Holds;
    forall s | s in w'.arrived ensures ArrivedHeld(w'.snd, w'.streams, s) {
      assert ArrivedHeld(w.snd, w.streams, s);
    }
  }

  lemma ReadKeeps(c: Conn, read: seq<byte>, t: nat, s: Streams.Inbound, max: nat)
    requires StreamOk(c, read, t, s)
    ensures var (s', r, _) := Streams.Read(s, max);
            && StreamOk(c, if r.Bytes? then read + r.data else read, t, s')
            && s'.ooo == s.ooo && s'.offset == s.offset && s'.violation == s.violation
  {
    var s' := Streams.Read(s, max).0;
    Streams.ReadFaithful(s, max, read, Written(c, t));
    SameHeld(s, s');
    if !s.violation { Streams.ReadAccounts(s, max); }
    hide Streams.Faithful, Streams.Accounted, Streams.Tidy, Streams.Drained;
  }

  lemma ReadsOk(w: World, t: nat, max: nat)
    requires WorldOk(w) && t in w.streams
    ensures WorldOk(ReadStep(w, t, max))
  {
    hide WorldOk, StreamOk, Streams.Read;
    StreamAt(w, t);
    ReadKeeps(w.snd, ReadOn(w, t), t, w.streams[t], max);
    StreamReplaced(w, ReadStep(w, t, max), t);
  }

  lemma CloseKeeps(c: Conn, read: seq<byte>, t: nat, s: Streams.Inbound)
    requires StreamOk(c, read, t, s)
    ensures var s' := Streams.Close(s);
            StreamOk(c, read, t, s') && s'.ooo == s.ooo && s'.offset == s.offset && s'.violation == s.violation
  {
    SameHeld(s, Streams.Close(s));
    hide Streams.Tidy, Streams.Drained;
  }

  lemma PeerClosesOk(w: World, t: nat)
    requires WorldOk(w) && t in w.streams
    ensures WorldOk(w.(streams := w.streams[t := Streams.Close(w.streams[t])]))
  {
    var w' := w.(streams := w.streams[t := Streams.Close(w.streams[t])]);
    hide WorldOk, StreamOk, Streams.Close;
    StreamAt(w, t);
    assert forall u :: ReadOn(w', u) == ReadOn(w, u);
    CloseKeeps(w.snd, ReadOn(w, t), t, w.streams[t]);
    StreamReplaced(w, w', t);
  }

  // ----- Runs -----

  lemma StartOk(hdr: nat)
    requires Headers(hdr)
    ensures WorldOk(Start(hdr))
  {
    Runs.NewConnRests(hdr);
    hide Runs.Rest;
  }

  lemma EventOk(w: World, e: Event)
    requires WorldOk(w) && Possible(w, e)
    ensures WorldOk(Apply(w, e))
  {
    hide WorldOk, Runs.Apply, HandleAckFrame, Delivered, ReadStep, Streams.Close, AckTracker.ExactDownToLowest;
    match e
    case Sender(step) => SenderStepOk(w, step);
    case AckArrives(f, now, target) => AckArrivesOk(w, f, now, target);
    case DataArrives(s) => DataArrivesOk(w, s);
    case ProbeArrives(s) => ProbeArrivesOk(w, s);
    case AckSent(f) => AckSentOk(w, f);
    case Reads(stream, max) => ReadsOk(w, stream, max);
    case PeerCloses(stream) => PeerClosesOk(w, stream);
  }

  lemma {:induction false} RunOk(w: World, events: seq<Event>)
    requires WorldOk(w)
    ensures WorldOk(Run(w, events))
  {
    hide WorldOk, Possible, Apply;
    if events != [] {
      var w1, e := Run(w, events[..|events| - 1]), events[|events| - 1];
      RunOk(w, events[..|events| - 1]);
      if Possible(w1, e) { EventOk(w1, e); }
    }
  }

  lemma Reachable(hdr: nat, events: seq<Event>)
    requires Headers(hdr)
    ensures WorldOk(Run(Start(hdr), events))
  {
    StartOk(hdr);
    hide WorldOk;
    RunOk(Start(hdr), events);
  }

  /** Prefix safety: in every run, over any losses, repeats and reorderings, and however
      frames were cut and re-cut, what the application has read followed by what waits
      for it is exactly the first bytes the peer wrote. */
  lemma DeliversAPrefix(hdr: nat, events: seq<Event>, stream: nat)
    requires Headers(hdr) && stream in Run(Start(hdr), events).streams
    ensures var w := Run(Start(hdr), events);
            var s := w.streams[stream];
            s.offset <= |Written(w.snd, stream)| && ReadOn(w, stream) + s.buf == Written(w.snd, stream)[..s.offset]
  {
    hide Run, WorldOk;
    Reachable(hdr, events);
    StreamAt(Run(Start(hdr), events), stream);
  }

  /** Nothing acknowledged is lost: whenever the sender counts a record as acknowledged,
      the receiver already holds every byte of it, delivered or waiting out of order,
      unless it hit the backstop; and what it holds are the bytes the sender wrote. */
  lemma AcknowledgedIsHeld(hdr: nat, events: seq<Event>, r: nat)
    requires Headers(hdr) && r in Run(Start(hdr), events).snd.log.acked
    ensures var w := Run(Start(hdr), events);
            && r in w.snd.log.carriers && Held(w.streams, w.snd.log.carriers[r])
            && forall t <- w.streams :: Streams.Faithful(w.streams[t], ReadOn(w, t), Written(w.snd, t))
  {
    var w := Run(Start(hdr), events);
    hide Run, WorldOk, Streams.Faithful;
    Reachable(hdr, events);
    AckedHeld(w, r);
    forall t | t in w.streams ensures Streams.Faithful(w.streams[t], ReadOn(w, t), Written(w.snd, t)) {
      StreamAt(w, t);
    }
  }

  lemma AckedHeld(w: World, r: nat)
    requires WorldOk(w) && r in w.snd.log.acked
    ensures r in w.snd.log.carriers && Held(w.streams, w.snd.log.carriers[r])
  {
    var c := w.snd;
    assert Reached(c, w.arrived, r) by { hide Runs.Rest, ReceiverOk; }
    var s :| s in w.arrived && s in c.wire && c.wire[s].ref == r;
    RestWire(c);
    assert r in c.log.carriers by { hide WireOk, TrackedOk, SenderOk, ReceiverOk, Runs.Rest; }
    assert ArrivedHeld(c, w.streams, s) by { hide SenderOk, StreamOk, WireOk, InCustody, TrackedOk; }
    assert SpansOk(c.log.carriers, c.wire) by { hide SenderOk, ReceiverOk, InCustody, TrackedOk; }
    assert Whole(c.log.carriers, c.wire, r, s);
  }

  /** EOF is never early: a Read that reports the end of the stream, unless the backstop
      was hit, comes after the peer closed it and every byte it wrote was handed over. */
  lemma EofMeansAll(hdr: nat, events: seq<Event>, stream: nat, max: nat)
    requires Headers(hdr) && stream in Run(Start(hdr), events).streams
    requires !Run(Start(hdr), events).streams[stream].violation
    requires Streams.Read(Run(Start(hdr), events).streams[stream], max).1.Eof?
    ensures var w := Run(Start(hdr), events);
            stream in w.snd.log.finished && ReadOn(w, stream) == Written(w.snd, stream)
  {
    var w := Run(Start(hdr), events);
    hide Run, WorldOk, Streams.Tidy, Streams.Drained, AllFromWire, Streams.Accounted;
    Reachable(hdr, events);
    StreamAt(w, stream);
    var all := Written(w.snd, stream);
    assert all[..|all|] == all && ReadOn(w, stream) + [] == ReadOn(w, stream);
  }

  /** The delivered prefix is the longest one: its first byte beyond is not held. */
  lemma PrefixIsLongest(hdr: nat, events: seq<Event>, stream: nat)
    requires Headers(hdr) && stream in Run(Start(hdr), events).streams
    ensures var s := Run(Start(hdr), events).streams[stream]; !Streams.Holds(s, s.offset)
  {
    hide Run, WorldOk;
    Reachable(hdr, events);
    StreamAt(Run(Start(hdr), events), stream);
  }

  /** Recovery completes the stream: once nothing is outstanding, every byte written has
      been delivered in order, unless the backstop was hit. */
  lemma AllDeliveredWhenIdle(hdr: nat, events: seq<Event>, stream: nat)
    requires Headers(hdr) && !Runs.Outstanding(Run(Start(hdr), events).snd)
    requires Written(Run(Start(hdr), events).snd, stream) != []
    ensures var w := Run(Start(hdr), events);
            && stream in w.streams
            && (w.streams[stream].violation || w.streams[stream].offset == |Written(w.snd, stream)|)
  {
    var w := Run(Start(hdr), events);
    hide Run, WorldOk, Runs.Outstanding;
    Reachable(hdr, events);
    var n := |Written(w.snd, stream)|;
    ByteHeld(w, stream, 0);
    var s := w.streams[stream];
    StreamAt(w, stream);
    if !s.violation && s.offset < n {
      ByteHeld(w, stream, s.offset);
    }
  }

  lemma ByteHeld(w: World, stream: nat, b: nat)
    requires WorldOk(w) && !Runs.Outstanding(w.snd) && b < |Written(w.snd, stream)|
    ensures stream in w.streams && (w.streams[stream].violation || Streams.Holds(w.streams[stream], b))
  {
    var c := w.snd;
    RestWire(c);
    hide Runs.Rest, ReceiverOk, WireOk, TrackedOk;
    var r := Runs.OneRecord(ViewOf(c), c.queue, stream, b);
    assert r in c.log.acked by { hide SenderOk, Complete, PoolOk; }
    hide InCustody, Runs.Outstanding, SenderOk;
    AckedHeld(w, r);
  }
}
