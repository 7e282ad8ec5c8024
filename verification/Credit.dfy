/** Flow control between two whole peers: every stream of a connection, over a network
    that loses, repeats and reorders data, ACKs and WINDOW_UPDATEs alike, and with packets
    re-cut along the way. A write takes no more than the sender's own limit allows; that
    limit moves only by updates. */
module Credit {
  import opened Frames
  import opened Sending
  import opened EndToEnd
  import opened Unmoved
  import opened Backstop
  import AckTracker
  import FlowControl
  import FlowSystem
  import Reassembly
  import Runs
  import Streams

  type Limits = FlowControl.Limits

  /** The two peers, the sender's limit on each stream, and every limit ever put into a
      WINDOW_UPDATE, at its full width. */
  datatype Net = Net(w: World, limits: map<nat, Limits>, updates: map<nat, set<int>>)

  function Fresh(): Limits { FlowControl.Start(FlowControl.INITIAL_WINDOW, FlowControl.INITIAL_WINDOW) }

  function NewNet(hdr: nat): Net { Net(Start(hdr), map[], map[]) }

  /** The sender's counters for a stream. */
  function SenderOf(n: Net, t: nat): Limits { if t in n.limits then n.limits[t] else Fresh() }

  function UpdatesOf(n: Net, t: nat): set<int> { if t in n.updates then n.updates[t] else {} }

  /** The receiver's, which start with the stream. */
  function ReceiverOf(w: World, t: nat): Limits { if t in w.streams then w.streams[t].fc else Fresh() }

  datatype Act =
    | Moves(event: Event)
    | Writes(stream: nat, data: seq<byte>, chunk: nat, credit: nat, isSyn: bool, at: int)
    | Takes(stream: nat, max: nat)
    | UpdateArrives(stream: nat, limit: int)
    | BlockedArrives(stream: nat)

  /** Writes and reads go through flow control; a WINDOW_UPDATE may be stale, but by less
      than 2^31 bytes. */
  ghost predicate CanAct(n: Net, a: Act) {
    match a
    case Moves(e) => !(e.Sender? && e.step.Writes?) && !e.Reads? && Possible(n.w, e)
    case Writes(stream, _, chunk, _, isSyn, at) => Runs.Possible(n.w.snd, Runs.Writes(stream, [], chunk, isSyn, at))
    case Takes(stream, _) => stream in n.w.streams
    case UpdateArrives(stream, limit) =>
      limit in UpdatesOf(n, stream) && SenderOf(n, stream).maxStreamData - limit < FlowControl.HALF
    case BlockedArrives(stream) => stream in n.w.streams
  }

  /** How much of a write one pass hands over. */
  function Granted(n: Net, stream: nat, data: seq<byte>, chunk: nat, credit: nat): (k: nat)
    requires chunk > 0
    ensures k <= |data| && k <= FlowControl.SendWindowAvailable(SenderOf(n, stream))
  {
    Streams.Batch(|data|, chunk, FlowControl.SendWindowAvailable(SenderOf(n, stream)), credit)
  }

  /** What the act is to the two peers, if they take part in it. */
  ghost function EventOf(n: Net, a: Act): Option<Event>
    requires CanAct(n, a)
  {
    match a
    case Moves(e) => Some(e)
    case Writes(stream, data, chunk, credit, isSyn, at) =>
      var k := Granted(n, stream, data, chunk, credit);
      if k == 0 then None else Some(Sender(Runs.Writes(stream, data[..k], chunk, isSyn, at)))
    case Takes(stream, max) => Some(Reads(stream, max))
    case UpdateArrives(_, _) => None
    case BlockedArrives(_) => None
  }

  lemma EventPossible(n: Net, a: Act)
    requires CanAct(n, a) && EventOf(n, a).Some?
    ensures Possible(n.w, EventOf(n, a).value)
  {
  }

  /** The receiver advertises its limit again. */
  function Refreshed(w: World, t: nat): World
    requires t in w.streams
  {
    var s := w.streams[t];
    w.(streams := w.streams[t := s.(fc := FlowControl.RefreshLimit(s.fc))])
  }

  ghost function WorldAfter(n: Net, a: Act): World
    requires CanAct(n, a)
  {
    if a.BlockedArrives? then Refreshed(n.w, a.stream)
    else match EventOf(n, a)
      case None => n.w
      case Some(e) => EventPossible(n, a); Apply(n.w, e)
  }

  ghost function LimitsAfter(n: Net, a: Act): map<nat, Limits>
    requires CanAct(n, a)
  {
    match a
    case Writes(stream, data, chunk, credit, _, _) =>
      var k := Granted(n, stream, data, chunk, credit);
      if k == 0 then n.limits else n.limits[stream := FlowControl.OnDataSent(SenderOf(n, stream), k)]
    case UpdateArrives(stream, limit) =>
      n.limits[stream := FlowControl.ApplyWindowUpdate(SenderOf(n, stream), limit % TWO_32)]
    case _ => n.limits
  }

  ghost function UpdatesAfter(n: Net, a: Act): map<nat, set<int>>
    requires CanAct(n, a)
  {
    match a
    case Takes(stream, max) =>
      var limit := Streams.Read(n.w.streams[stream], max).2;
      if limit.None? then n.updates else n.updates[stream := UpdatesOf(n, stream) + {limit.value}]
    case BlockedArrives(stream) =>
      var fc := FlowControl.RefreshLimit(n.w.streams[stream].fc);
      n.updates[stream := UpdatesOf(n, stream) + {fc.lastAdvertised}]
    case _ => n.updates
  }

  ghost function Next(n: Net, a: Act): Net
    requires CanAct(n, a)
  {
    Net(WorldAfter(n, a), LimitsAfter(n, a), UpdatesAfter(n, a))
  }

  ghost function Acts(n: Net, acts: seq<Act>): Net {
    if acts == [] then n
    else
      var n1, a := Acts(n, acts[..|acts| - 1]), acts[|acts| - 1];
      if CanAct(n1, a) then Next(n1, a) else n1
  }

  // ----- What always holds of a stream's limits -----

  /** The sender counts what was written, the receiver what was read, and limits and
      updates between them are in order. */
  ghost predicate InOrder(n: Net, t: nat) {
    && SenderOf(n, t).dataSent == |Written(n.w.snd, t)| && ReceiverOf(n.w, t).dataConsumed == |ReadOn(n.w, t)|
    && FlowSystem.LimitsOk(SenderOf(n, t), ReceiverOf(n.w, t), UpdatesOf(n, t))
  }

  ghost predicate NetOk(n: Net) { WorldOk(n.w) && forall t: nat {:trigger InOrder(n, t)} :: InOrder(n, t) }

  lemma NewNetOk(hdr: nat)
    requires Headers(hdr)
    ensures NetOk(NewNet(hdr))
  {
    StartOk(hdr);
    hide WorldOk;
  }

  /** A frame only adds to what was received, even one the backstop turns away. */
  lemma DeliverCounts(s: Streams.Inbound, f: StreamFrame)
    ensures var s' := Streams.DeliverFrame(s, f); s'.fc == s.fc.(dataRecvd := s'.fc.dataRecvd)
  {
    if f.offset <= s.offset < f.End() { Streams.ReleaseGrows(Streams.Append(s, f.offset, f.data)); }
    hide Streams.Release;
  }

  /** Nothing but a read or a blocked signal moves what the receiver has consumed or
      advertised. */
  lemma ReceiverSame(w: World, e: Event, t: nat)
    requires Possible(w, e) && !e.Reads?
    ensures var l, l' := ReceiverOf(w, t), ReceiverOf(Apply(w, e), t); l' == l.(dataRecvd := l'.dataRecvd)
    ensures ReadOn(Apply(w, e), t) == ReadOn(w, t)
  {
    if e.DataArrives? {
      var d := w.snd.wire[e.sequence];
      if Target(w.streams, d).Some? { DeliverCounts(Target(w.streams, d).value, d.frame); }
    }
    hide Streams.DeliverFrame, Runs.Apply, HandleAckFrame, AckTracker.ExactDownToLowest;
  }

  /** Nothing but a write adds to what is written. */
  lemma WrittenSame(w: World, e: Event, t: nat)
    requires Possible(w, e) && !(e.Sender? && e.step.Writes?)
    ensures Written(Apply(w, e).snd, t) == Written(w.snd, t)
  {
    hide Runs.Apply, HandleAckFrame, AckTracker.ExactDownToLowest, Delivered, ReadStep, Written;
    match e
    case Sender(step) => StepWritten(w.snd, step);
    case AckArrives(f, now, target) => AckIsAStep(w.snd, f, now, target); StepWritten(w.snd, Runs.Acks(f, now, target));
    case Reads(stream, max) => SenderAlone(w, stream, max);
    case _ =>
  }

  lemma SenderAlone(w: World, stream: nat, max: nat)
    requires stream in w.streams
    ensures ReadStep(w, stream, max).snd == w.snd
  {
    hide Streams.Read;
  }

  // ----- The acts -----

  lemma MovesInOrder(n: Net, e: Event, t: nat)
    requires CanAct(n, Moves(e)) && InOrder(n, t)
    ensures InOrder(Next(n, Moves(e)), t)
  {
    var n' := Next(n, Moves(e));
    assert Possible(n.w, e) && n'.w == Apply(n.w, e) && n'.limits == n.limits && n'.updates == n.updates
    by { hide Possible, Apply; }
    assert SenderOf(n', t) == SenderOf(n, t) && UpdatesOf(n', t) == UpdatesOf(n, t);
    hide Next, Apply, Possible, ReceiverOf, FlowSystem.LimitsOk, SenderOf, UpdatesOf, Written, ReadOn;
    ReceiverSame(n.w, e, t);
    WrittenSame(n.w, e, t);
    FlowSystem.LimitsRead(SenderOf(n, t), ReceiverOf(n.w, t), ReceiverOf(n'.w, t), UpdatesOf(n, t));
  }

  lemma WritesIs(n: Net, a: Act, t: nat)
    requires a.Writes? && CanAct(n, a)
    ensures a.chunk > 0
    ensures var n', k := Next(n, a), Granted(n, a.stream, a.data, a.chunk, a.credit);
            && ReceiverOf(n'.w, t) == ReceiverOf(n.w, t) && UpdatesOf(n', t) == UpdatesOf(n, t)
            && ReadOn(n'.w, t) == ReadOn(n.w, t)
            && |Written(n'.w.snd, t)| == |Written(n.w.snd, t)| + (if t == a.stream then k else 0)
            && SenderOf(n', t) ==
               if t == a.stream && k > 0 then FlowControl.OnDataSent(SenderOf(n, t), k) else SenderOf(n, t)
  {
    var k := Granted(n, a.stream, a.data, a.chunk, a.credit);
    if k > 0 { Runs.WriteAppends(n.w.snd, a.stream, a.data[..k], a.chunk, a.isSyn, a.at); }
    hide Granted, Write, Written, FlowControl.OnDataSent;
  }

  /** A write of what the limit allows. */
  lemma WriteInOrder(n: Net, a: Act, t: nat)
    requires a.Writes? && CanAct(n, a) && InOrder(n, t)
    ensures InOrder(Next(n, a), t)
  {
    hide *;
    WritesIs(n, a, t);
    InOrderIs(n, t);
    InOrderIs(Next(n, a), t);
    var k := Granted(n, a.stream, a.data, a.chunk, a.credit);
    if t == a.stream && k > 0 {
      FlowSystem.SendKeepsLimits(SenderOf(n, t), ReceiverOf(n.w, t), UpdatesOf(n, t), k);
      Counted(SenderOf(n, t), k);
    }
  }

  lemma Counted(l: Limits, k: nat)
    ensures FlowControl.OnDataSent(l, k).dataSent == l.dataSent + k
  {
  }

  /** A read takes no more than was written, and advertises within the window. */
  lemma ReadKeepsLimits(snd: Limits, s: Streams.Inbound, updates: set<int>, max: nat)
    requires FlowSystem.LimitsOk(snd, s.fc, updates) && s.fc.dataConsumed + |s.buf| <= snd.dataSent
    ensures var (s', r, u) := Streams.Read(s, max);
            && FlowSystem.LimitsOk(snd, s'.fc, if u.Some? then updates + {u.value} else updates)
            && s'.fc.dataConsumed == s.fc.dataConsumed + if r.Bytes? then |r.data| else 0
  {
    if s.buf != [] { FlowSystem.ConsumeKeepsLimits(snd, s.fc, updates, Min(max, |s.buf|)); }
    hide FlowSystem.LimitsOk;
  }

  lemma TakesIs(n: Net, a: Act, t: nat)
    requires a.Takes? && CanAct(n, a)
    ensures var n', (s, r, u) := Next(n, a), Streams.Read(n.w.streams[a.stream], a.max);
            && n'.w.snd == n.w.snd && SenderOf(n', t) == SenderOf(n, t)
            && (t == a.stream ==>
                  && ReceiverOf(n.w, t) == n.w.streams[t].fc && ReceiverOf(n'.w, t) == s.fc
                  && UpdatesOf(n', t) == (if u.Some? then UpdatesOf(n, t) + {u.value} else UpdatesOf(n, t))
                  && ReadOn(n'.w, t) == if r.Bytes? then ReadOn(n.w, t) + r.data else ReadOn(n.w, t))
            && (t != a.stream ==>
                  && ReceiverOf(n'.w, t) == ReceiverOf(n.w, t) && UpdatesOf(n', t) == UpdatesOf(n, t)
                  && ReadOn(n'.w, t) == ReadOn(n.w, t))
  {
    hide Streams.Read;
  }

  lemma TakeInOrder(n: Net, a: Act, t: nat)
    requires a.Takes? && CanAct(n, a) && WorldOk(n.w) && InOrder(n, t)
    ensures InOrder(Next(n, a), t)
  {
    TakesStream(n, a);
    hide *;
    TakesIs(n, a, t);
    InOrderIs(n, t);
    InOrderIs(Next(n, a), t);
    if t == a.stream {
      var s := n.w.streams[t];
      StreamAt(n.w, t);
      HeldIsWritten(n.w.snd, ReadOn(n.w, t), t, s);
      ReadKeepsLimits(SenderOf(n, t), s, UpdatesOf(n, t), a.max);
    }
  }

  lemma TakesStream(n: Net, a: Act)
    requires a.Takes? && CanAct(n, a)
    ensures a.stream in n.w.streams
  {
  }

  lemma InOrderIs(n: Net, t: nat)
    ensures InOrder(n, t) <==>
            && SenderOf(n, t).dataSent == |Written(n.w.snd, t)| && ReceiverOf(n.w, t).dataConsumed == |ReadOn(n.w, t)|
            && FlowSystem.LimitsOk(SenderOf(n, t), ReceiverOf(n.w, t), UpdatesOf(n, t))
  {
    hide FlowSystem.LimitsOk;
  }

  lemma HeldIsWritten(c: Conn, read: seq<byte>, t: nat, s: Streams.Inbound)
    requires StreamOk(c, read, t, s)
    ensures |read| + |s.buf| <= |Written(c, t)|
  {
    assert |read + s.buf| == |read| + |s.buf|;
    hide Streams.Tidy, Streams.Drained, AllFromWire, Streams.FinExact, Streams.Accounted;
  }

  lemma UpdateInOrder(n: Net, a: Act, t: nat)
    requires a.UpdateArrives? && CanAct(n, a) && InOrder(n, t)
    ensures InOrder(Next(n, a), t)
  {
    if t == a.stream {
      FlowSystem.UpdateKeepsLimits(SenderOf(n, t), ReceiverOf(n.w, t), UpdatesOf(n, t), a.limit);
      FlowSystem.SentAlone(SenderOf(n, t), a.limit % TWO_32);
    }
    hide FlowSystem.LimitsOk, FlowControl.ApplyWindowUpdate, Written;
  }

  lemma AnswerInOrder(n: Net, a: Act, t: nat)
    requires a.BlockedArrives? && CanAct(n, a) && InOrder(n, t)
    ensures InOrder(Next(n, a), t)
  {
    if t == a.stream { FlowSystem.AnswerKeepsLimits(SenderOf(n, t), ReceiverOf(n.w, t), UpdatesOf(n, t)); }
    hide FlowSystem.LimitsOk, Written;
  }

  lemma RefreshedOk(w: World, t: nat)
    requires WorldOk(w) && t in w.streams
    ensures WorldOk(Refreshed(w, t))
  {
    StreamAt(w, t);
    RefreshKeeps(w.snd, ReadOn(w, t), t, w.streams[t]);
    hide WorldOk, StreamOk;
    assert forall u :: ReadOn(Refreshed(w, t), u) == ReadOn(w, u);
    StreamReplaced(w, Refreshed(w, t), t);
  }

  lemma RefreshKeeps(c: Conn, read: seq<byte>, t: nat, s: Streams.Inbound)
    requires StreamOk(c, read, t, s)
    ensures StreamOk(c, read, t, s.(fc := FlowControl.RefreshLimit(s.fc)))
  {
    var s' := s.(fc := FlowControl.RefreshLimit(s.fc));
    assert s.fc.dataRecvd == s'.fc.dataRecvd && s.fc.dataConsumed == s'.fc.dataConsumed;
    SameHeld(s, s');
    hide Streams.Tidy, Streams.Drained, Streams.Total;
  }

  lemma ActWorld(n: Net, a: Act)
    requires WorldOk(n.w) && CanAct(n, a)
    ensures WorldOk(WorldAfter(n, a))
  {
    if a.BlockedArrives? {
      RefreshedOk(n.w, a.stream);
    } else if EventOf(n, a).Some? {
      EventPossible(n, a);
      EventOk(n.w, EventOf(n, a).value);
    }
    hide WorldOk, EventOf, Apply, CanAct, Refreshed;
  }

  lemma ActOk(n: Net, a: Act)
    requires NetOk(n) && CanAct(n, a)
    ensures NetOk(Next(n, a))
  {
    var n' := Next(n, a);
    assert n'.w == WorldAfter(n, a) by { hide WorldAfter, LimitsAfter, UpdatesAfter; }
    hide WorldOk, InOrder, Next, CanAct, WorldAfter;
    ActWorld(n, a);
    forall t: nat ensures InOrder(n', t) {
      assert InOrder(n, t);
      match a
      case Moves(e) => MovesInOrder(n, e, t);
      case Writes(_, _, _, _, _, _) => WriteInOrder(n, a, t);
      case Takes(_, _) => TakeInOrder(n, a, t);
      case UpdateArrives(_, _) => UpdateInOrder(n, a, t);
      case BlockedArrives(_) => AnswerInOrder(n, a, t);
    }
  }

  lemma {:induction false} ActsOk(n: Net, acts: seq<Act>)
    requires NetOk(n)
    ensures NetOk(Acts(n, acts))
  {
    hide NetOk, CanAct, Next;
    if acts != [] {
      var n1, a := Acts(n, acts[..|acts| - 1]), acts[|acts| - 1];
      ActsOk(n, acts[..|acts| - 1]);
      if CanAct(n1, a) { ActOk(n1, a); }
    }
  }

  /** Safety and progress of every stream in every run, whatever is lost and however
      packets are re-cut: written within the sender's limit, that within what the receiver
      advertised, that within what it will hold; at least half a window of credit on
      offer; blocked exactly when no credit is left; and every update less than 2^31 stale
      reads back exactly. */
  lemma FlowSafety(hdr: nat, acts: seq<Act>, t: nat)
    requires Headers(hdr)
    ensures var n := Acts(NewNet(hdr), acts);
            var snd, rcv := SenderOf(n, t), ReceiverOf(n.w, t);
            && |Written(n.w.snd, t)| == snd.dataSent <= snd.maxStreamData <= rcv.lastAdvertised
            && rcv.lastAdvertised <= |ReadOn(n.w, t)| + rcv.recvWindow <= |ReadOn(n.w, t)| + FlowControl.MAX_WINDOW
            && rcv.lastAdvertised - |ReadOn(n.w, t)| >= rcv.recvWindow / 2
            && (snd.blocked <==> FlowControl.SendWindowAvailable(snd) == 0)
            && forall u <- UpdatesOf(n, t) :: snd.maxStreamData - u < FlowControl.HALF ==>
                 FlowControl.Reconstruct(u % TWO_32, snd.maxStreamData) == u
  {
    hide Acts, WorldOk, SenderOf, ReceiverOf, UpdatesOf, Written, ReadOn, FlowControl.Reconstruct;
    NewNetOk(hdr);
    ActsOk(NewNet(hdr), acts);
    var n := Acts(NewNet(hdr), acts);
    assert InOrder(n, t);
    forall u | u in UpdatesOf(n, t) && SenderOf(n, t).maxStreamData - u < FlowControl.HALF
      ensures FlowControl.Reconstruct(u % TWO_32, SenderOf(n, t).maxStreamData) == u
    {
      FlowSystem.UpdateReadsBack(SenderOf(n, t), ReceiverOf(n.w, t), UpdatesOf(n, t), u);
    }
  }

  // ----- The backstop -----

  lemma KeepsToLimits(n: Net)
    requires NetOk(n)
    ensures InLimits(n.w)
  {
    hide WorldOk, Written;
    forall t: nat ensures |Written(n.w.snd, t)| <= Limit(n.w, t) { assert InOrder(n, t); }
  }

  lemma RefreshedGuarded(w: World, t: nat)
    requires AllGuarded(w) && t in w.streams
    ensures AllGuarded(Refreshed(w, t))
  {
    hide Reassembly.Exact;
    SameExact(w.streams[t], Refreshed(w, t).streams[t]);
  }

  lemma SameExact(s: Streams.Inbound, s': Streams.Inbound)
    requires s'.ooo == s.ooo && s'.offset == s.offset
    ensures Reassembly.Exact(s') <==> Reassembly.Exact(s)
  {
  }

  lemma ActGuarded(n: Net, a: Act)
    requires NetOk(n) && AllGuarded(n.w) && CanAct(n, a) && Unsplit(WorldAfter(n, a).snd)
    ensures AllGuarded(WorldAfter(n, a)) && Unsplit(n.w.snd)
  {
    KeepsToLimits(n);
    NetWorld(n);
    if a.BlockedArrives? {
      RefreshedGuarded(n.w, a.stream);
    } else if EventOf(n, a).Some? {
      var e := EventOf(n, a).value;
      EventPossible(n, a);
      SplitBefore(n.w, e);
      EventGuarded(n.w, e);
    }
    hide NetOk, AllGuarded, Unsplit, EventOf, Apply, CanAct, InLimits, WorldOk;
  }

  lemma NetWorld(n: Net)
    requires NetOk(n)
    ensures WorldOk(n.w)
  {
    hide WorldOk, InOrder;
  }

  lemma SplitBefore(w: World, e: Event)
    requires WorldOk(w) && Possible(w, e) && Unsplit(Apply(w, e).snd)
    ensures Unsplit(w.snd)
  {
    hide *;
    SenderGrows(w, e);
    WorldParts(w);
    RestWire(w.snd);
    UnsplitBefore(w.snd, Apply(w, e).snd);
  }

  lemma {:induction false} ActsGuarded(n: Net, acts: seq<Act>)
    requires NetOk(n) && AllGuarded(n.w) && Unsplit(Acts(n, acts).w.snd)
    ensures AllGuarded(Acts(n, acts).w)
  {
    if acts == [] {
      hide NetOk, AllGuarded, Unsplit;
    } else {
      var n1, a := Acts(n, acts[..|acts| - 1]), acts[|acts| - 1];
      ActsIs(n, acts);
      hide *;
      ActsOk(n, acts[..|acts| - 1]);
      if CanAct(n1, a) {
        AfterSplit(n1, a);
        ActsGuarded(n, acts[..|acts| - 1]);
        ActGuarded(n1, a);
      } else {
        ActsGuarded(n, acts[..|acts| - 1]);
      }
    }
  }

  lemma ActsIs(n: Net, acts: seq<Act>)
    requires acts != []
    ensures var n1, a := Acts(n, acts[..|acts| - 1]), acts[|acts| - 1];
            && Acts(n, acts) == (if CanAct(n1, a) then Next(n1, a) else n1)
            && (CanAct(n1, a) ==> Acts(n, acts).w == WorldAfter(n1, a))
  {
    hide CanAct, WorldAfter, LimitsAfter, UpdatesAfter;
  }

  lemma AfterSplit(n: Net, a: Act)
    requires NetOk(n) && CanAct(n, a) && Unsplit(WorldAfter(n, a).snd)
    ensures Unsplit(n.w.snd)
  {
    NetWorld(n);
    if !a.BlockedArrives? && EventOf(n, a).Some? {
      EventPossible(n, a);
      SplitBefore(n.w, EventOf(n, a).value);
    }
    hide NetOk, Unsplit, EventOf, Apply, CanAct, WorldOk;
  }

  /** In every run at whose end no packet sent has been given up for smaller ones, the
      backstop was never hit, the count of buffered bytes is right, and what is buffered
      fits the receiver's window. */
  lemma NeverHit(hdr: nat, acts: seq<Act>, stream: nat)
    requires Headers(hdr) && stream in Acts(NewNet(hdr), acts).w.streams
    requires Unsplit(Acts(NewNet(hdr), acts).w.snd)
    ensures var s := Acts(NewNet(hdr), acts).w.streams[stream];
            !s.violation && Reassembly.CountRight(s) && FlowControl.BufferedBytes(s.fc) <= s.fc.recvWindow
  {
    var n := Acts(NewNet(hdr), acts);
    hide Acts, WorldOk, Unsplit, Reassembly.CountRight, Streams.Accounted, Written, ReadOn, InOrder;
    NewNetOk(hdr);
    ActsOk(NewNet(hdr), acts);
    ActsGuarded(NewNet(hdr), acts);
    var s := n.w.streams[stream];
    StreamAt(n.w, stream);
    Reassembly.CountRightIfExact(s);
    Reassembly.BufferedIsReal(s, ReadOn(n.w, stream), Written(n.w.snd, stream));
    assert InOrder(n, stream);
    Fits(n, stream);
  }

  lemma Fits(n: Net, t: nat)
    requires InOrder(n, t) && t in n.w.streams
    ensures |Written(n.w.snd, t)| - n.w.streams[t].fc.dataConsumed <= n.w.streams[t].fc.recvWindow
  {
    hide Written;
  }
}
