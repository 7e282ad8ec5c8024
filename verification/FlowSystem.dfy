/** Flow control of one stream as a protocol between its two ends. The sender cuts each
    write once, so every frame is sent with one set of boundaries; frames and
    WINDOW_UPDATEs may be lost, repeated and reordered. A WINDOW_UPDATE may be stale, but
    by less than 2^31 bytes. */
module FlowSystem {
  import opened Frames
  import opened FlowControl
  import opened Streams

  /** `frames` and `written` are what was sent, `got` the frames that have arrived,
      `updates` the limits ever put into a WINDOW_UPDATE, at their full width. */
  datatype Link = Link(
    snd: Limits, frames: seq<StreamFrame>, written: seq<byte>,
    rcv: Inbound, read: seq<byte>, got: set<nat>, updates: set<int>)

  function NewLink(): Link {
    Link(Start(INITIAL_WINDOW, INITIAL_WINDOW), [], [], NewInbound(Open), [], {}, {})
  }

  datatype Event =
    | Sends(data: seq<byte>, chunk: nat, credit: nat, isSyn: bool)
    | Arrives(index: nat)
    | Reads(max: nat)
    | UpdateArrives(limit: int)
    | BlockedArrives

  predicate Possible(l: Link, e: Event) {
    match e
    case Sends(_, chunk, _, _) => chunk > 0
    case Arrives(i) => i < |l.frames|
    case Reads(_) => true
    case UpdateArrives(limit) => limit in l.updates && l.snd.maxStreamData - limit < HALF
    case BlockedArrives => true
  }

  /** One pass of Write, as much of the data as limit and congestion window allow. */
  function SendStep(l: Link, data: seq<byte>, chunk: nat, credit: nat, isSyn: bool): Link
    requires chunk > 0
  {
    var n := Batch(|data|, chunk, SendWindowAvailable(l.snd), credit);
    l.(snd := OnDataSent(l.snd, n), written := l.written + data[..n],
       frames := l.frames + Chunks(|l.written|, data[..n], chunk, isSyn, false))
  }

  function ReadStep(l: Link, max: nat): Link {
    var (s, r, limit) := Read(l.rcv, max);
    l.(rcv := s, read := if r.Bytes? then l.read + r.data else l.read,
       updates := if limit.Some? then l.updates + {limit.value} else l.updates)
  }

  /** STREAM_DATA_BLOCKED arrives and is answered. */
  function AnswerStep(l: Link): Link {
    var fc := RefreshLimit(l.rcv.fc);
    l.(rcv := l.rcv.(fc := fc), updates := l.updates + {fc.lastAdvertised})
  }

  function Apply(l: Link, e: Event): Link
    requires Possible(l, e)
  {
    match e
    case Sends(data, chunk, credit, isSyn) => SendStep(l, data, chunk, credit, isSyn)
    case Arrives(i) => l.(rcv := DeliverFrame(l.rcv, l.frames[i]), got := l.got + {i})
    case Reads(max) => ReadStep(l, max)
    case UpdateArrives(limit) => l.(snd := ApplyWindowUpdate(l.snd, limit % TWO_32))
    case BlockedArrives => AnswerStep(l)
  }

  function Run(l: Link, events: seq<Event>): Link {
    if events == [] then l
    else
      var l1, e := Run(l, events[..|events| - 1]), events[|events| - 1];
      if Possible(l1, e) then Apply(l1, e) else l1
  }

  // ----- The limits -----

  /** What the two ends know of each other's limits, and what the window has cost. */
  ghost predicate LimitsOk(snd: Limits, rcv: Limits, updates: set<int>) {
    && 0 <= snd.dataSent <= snd.maxStreamData <= rcv.lastAdvertised <= rcv.dataConsumed + rcv.recvWindow
    && (forall u <- updates :: u <= rcv.lastAdvertised)
    && (snd.blocked <==> snd.dataSent == snd.maxStreamData)
    && 0 <= rcv.dataConsumed <= snd.dataSent
    && INITIAL_WINDOW <= rcv.recvWindow <= MAX_WINDOW
    && rcv.recvWindow <= INITIAL_WINDOW + 2 * (rcv.lastAdvertised - rcv.recvWindow)
    && rcv.lastAdvertised - rcv.dataConsumed >= rcv.recvWindow / 2
  }

  /** Every update that is not too stale is read back exactly: ahead of the sender's
      limit it can only be by a window. */
  lemma UpdateReadsBack(snd: Limits, rcv: Limits, updates: set<int>, u: int)
    requires LimitsOk(snd, rcv, updates) && u in updates && snd.maxStreamData - u < HALF
    ensures Reconstruct(u % TWO_32, snd.maxStreamData) == u
  {
    assert u - snd.maxStreamData <= rcv.lastAdvertised - snd.dataSent <= MAX_WINDOW;
    ReconstructExact(u, snd.maxStreamData);
  }

  lemma UpdateKeepsLimits(snd: Limits, rcv: Limits, updates: set<int>, u: int)
    requires LimitsOk(snd, rcv, updates) && u in updates && snd.maxStreamData - u < HALF
    ensures LimitsOk(ApplyWindowUpdate(snd, u % TWO_32), rcv, updates)
    ensures ApplyWindowUpdate(snd, u % TWO_32).maxStreamData == Max(snd.maxStreamData, u)
  {
    UpdateReadsBack(snd, rcv, updates, u);
    hide Reconstruct;
  }

  /** Consuming `n` bytes, and advertising when half the window is gone. */
  lemma ConsumeKeepsLimits(snd: Limits, rcv: Limits, updates: set<int>, n: nat)
    requires LimitsOk(snd, rcv, updates) && rcv.dataConsumed + n <= snd.dataSent
    ensures var (fc, update) := OnDataConsumed(rcv, n);
            if update then LimitsOk(snd, AdvertiseLimit(fc), updates + {AdvertiseLimit(fc).lastAdvertised})
            else LimitsOk(snd, fc, updates)
  {
  }

  lemma AnswerKeepsLimits(snd: Limits, rcv: Limits, updates: set<int>)
    requires LimitsOk(snd, rcv, updates)
    ensures LimitsOk(snd, RefreshLimit(rcv), updates + {RefreshLimit(rcv).lastAdvertised})
    ensures RefreshLimit(rcv).lastAdvertised == rcv.dataConsumed + rcv.recvWindow
  {
  }

  lemma SendKeepsLimits(snd: Limits, rcv: Limits, updates: set<int>, n: nat)
    requires LimitsOk(snd, rcv, updates) && n <= SendWindowAvailable(snd)
    ensures LimitsOk(OnDataSent(snd, n), rcv, updates)
  {
  }

  // ----- Re-assembly of one chunking -----

  /** Where frame `i` begins; past the last frame, where the stream ends. */
  function Boundary(frames: seq<StreamFrame>, end: nat, i: nat): nat {
    if i < |frames| then frames[i].offset else end
  }

  /** The first frame from `i` on that has not arrived. */
  function Lead(got: set<nat>, i: nat, n: nat): (p: nat)
    ensures i <= n ==> i <= p <= n
    ensures forall j :: i <= j < p ==> j in got
    ensures p < n ==> p !in got
    decreases n - i
  {
    if i < n && i in got then Lead(got, i + 1, n) else i
  }

  /** The frames follow one another and carry the stream. */
  ghost predicate Cut(frames: seq<StreamFrame>, w: seq<byte>) {
    && Boundary(frames, |w|, 0) == 0
    && forall i {:trigger CutAt(frames, w, i)} :: 0 <= i < |frames| ==> CutAt(frames, w, i)
  }

  ghost predicate CutAt(frames: seq<StreamFrame>, w: seq<byte>, i: nat)
    requires i < |frames|
  {
    && frames[i].data != [] && !frames[i].isFin && Within(w, frames[i].offset, frames[i].data)
    && frames[i].End() == Boundary(frames, |w|, i + 1)
  }

  lemma {:induction false} CutOrdered(frames: seq<StreamFrame>, w: seq<byte>, i: nat, j: nat)
    requires Cut(frames, w) && i < j <= |frames|
    ensures frames[i].End() <= Boundary(frames, |w|, j)
    decreases j
  {
    assert CutAt(frames, w, i) && CutAt(frames, w, j - 1);
    if i < j - 1 { CutOrdered(frames, w, i, j - 1); }
  }

  /** The chunk waiting at `k` is frame `i`. */
  predicate Waits(frames: seq<StreamFrame>, got: set<nat>, i: nat, k: nat, data: seq<byte>) {
    i < |frames| && i in got && frames[i].offset == k && frames[i].data == data
  }

  /** Everything before frame `p` is delivered, and just the arrived frames from `p` on
      wait out of order. */
  ghost predicate Assembled(s: Inbound, frames: seq<StreamFrame>, w: seq<byte>, got: set<nat>, p: nat) {
    && p <= |frames| && s.offset == Boundary(frames, |w|, p)
    && (forall i :: p <= i < |frames| && i in got ==>
          frames[i].offset in s.ooo && s.ooo[frames[i].offset] == frames[i].data)
    && (forall k <- s.ooo :: exists i :: i >= p && Waits(frames, got, i, k, s.ooo[k]))
  }

  lemma PopAssembled(s: Inbound, frames: seq<StreamFrame>, w: seq<byte>, got: set<nat>, p: nat)
    requires Cut(frames, w) && Assembled(s, frames, w, got, p) && p < |frames| && p in got
    ensures s.offset in s.ooo && Assembled(Pop(s), frames, w, got, p + 1)
  {
    var r := Pop(s);
    assert CutAt(frames, w, p);
    forall i | p + 1 <= i < |frames| && i in got
      ensures frames[i].offset in r.ooo && r.ooo[frames[i].offset] == frames[i].data
    {
      CutOrdered(frames, w, p, i);
    }
    forall k | k in r.ooo ensures exists i :: i >= p + 1 && Waits(frames, got, i, k, r.ooo[k]) {
      var i :| i >= p && Waits(frames, got, i, k, s.ooo[k]);
      assert i != p;
    }
  }

  /** The release loop delivers up to the first missing frame, and no further. */
  lemma {:induction false} ReleaseAssembles(s: Inbound, frames: seq<StreamFrame>, w: seq<byte>, got: set<nat>, p: nat)
    requires Cut(frames, w) && Assembled(s, frames, w, got, p)
    ensures Assembled(Release(s), frames, w, got, Lead(got, p, |frames|))
    decreases |s.ooo|
  {
    hide Assembled, Cut, Pop;
    if p < |frames| && p in got {
      PopAssembled(s, frames, w, got, p);
      PopShrinks(s);
      ReleaseAssembles(Pop(s), frames, w, got, p + 1);
    } else {
      NotWaiting(s, frames, w, got, p);
    }
  }

  lemma PopShrinks(s: Inbound)
    requires s.offset in s.ooo
    ensures |Pop(s).ooo| < |s.ooo|
  {
  }

  lemma NotWaiting(s: Inbound, frames: seq<StreamFrame>, w: seq<byte>, got: set<nat>, p: nat)
    requires Cut(frames, w) && Assembled(s, frames, w, got, p) && (p < |frames| ==> p !in got)
    ensures s.offset !in s.ooo
  {
    if s.offset in s.ooo {
      var i :| i >= p && Waits(frames, got, i, s.offset, s.ooo[s.offset]);
      assert CutAt(frames, w, p);
      CutOrdered(frames, w, p, i);
      assert false;
    }
  }

  /** What waits from frame `i` on is no more than the stream has from there. */
  lemma {:induction false} WaitingFits(m: map<nat, seq<byte>>, frames: seq<StreamFrame>, w: seq<byte>,
                                       got: set<nat>, i: nat)
    requires Cut(frames, w) && i <= |frames|
    requires forall k <- m :: exists x :: x >= i && Waits(frames, got, x, k, m[k])
    ensures Total(m) <= |w| - Boundary(frames, |w|, i)
    decreases |frames| - i
  {
    if i == |frames| {
      assert m.Keys == {};
      assert m == map[];
    } else {
      assert CutAt(frames, w, i);
      var o := frames[i].offset;
      var rest := m - {o};
      forall k | k in rest ensures exists x :: x >= i + 1 && Waits(frames, got, x, k, rest[k]) {
        var x :| x >= i && Waits(frames, got, x, k, m[k]);
        assert x != i && Waits(frames, got, x, k, rest[k]);
      }
      WaitingFits(rest, frames, w, got, i + 1);
      if o in m {
        var x :| x >= i && Waits(frames, got, x, o, m[o]);
        if x > i { CutOrdered(frames, w, i, x); }
        TotalWithout(m, o);
      } else {
        assert rest == m;
      }
    }
  }

  /** A frame of the chunking arrives: the delivered offset is again the end of the
      longest run of frames that have, and the backstop is out of reach. */
  lemma ArrivesAssembled(s: Inbound, frames: seq<StreamFrame>, w: seq<byte>, got: set<nat>, j: nat)
    requires Cut(frames, w) && Assembled(s, frames, w, got, Lead(got, 0, |frames|)) && j < |frames|
    requires s.oooBytes == Total(s.ooo) && |w| - s.offset <= MAX_RECV_OOO && !s.violation
    ensures var s' := Place(s, frames[j].offset, frames[j].data).0;
            !s'.violation && Assembled(s', frames, w, got + {j}, Lead(got + {j}, 0, |frames|))
  {
    var p, f := Lead(got, 0, |frames|), frames[j];
    assert CutAt(frames, w, j);
    if j < p {
      CutOrdered(frames, w, j, p);
      SameGot(s, frames, w, got, j, p);
    } else if j == p {
      assert Append(s, f.offset, f.data).offset == f.End();
      NextArrives(s, frames, w, got, p);
    } else {
      CutOrdered(frames, w, p, j);
      assert CutAt(frames, w, p);
      HoldArrives(s, frames, w, got, p, j);
    }
  }

  lemma SameGot(s: Inbound, frames: seq<StreamFrame>, w: seq<byte>, got: set<nat>, j: nat, p: nat)
    requires Assembled(s, frames, w, got, p) && j in got && p == Lead(got, 0, |frames|)
    ensures Assembled(s, frames, w, got + {j}, Lead(got + {j}, 0, |frames|))
  {
    assert got + {j} == got;
  }

  /** More of the stream has arrived than was asked about. */
  lemma WaitsMore(frames: seq<StreamFrame>, got: set<nat>, got': set<nat>, m: map<nat, seq<byte>>, p: nat)
    requires got <= got' && forall k <- m :: exists i :: i >= p && Waits(frames, got, i, k, m[k])
    ensures forall k <- m :: exists i :: i >= p && Waits(frames, got', i, k, m[k])
  {
    forall k | k in m ensures exists i :: i >= p && Waits(frames, got', i, k, m[k]) {
      var i :| i >= p && Waits(frames, got, i, k, m[k]);
      assert Waits(frames, got', i, k, m[k]);
    }
  }

  lemma LeadUnique(got: set<nat>, p: nat, n: nat)
    requires p <= n && (forall j :: 0 <= j < p ==> j in got) && (p < n ==> p !in got)
    ensures Lead(got, 0, n) == p
  {
    var q := Lead(got, 0, n);
    assert q < p ==> q in got;
    assert p < q ==> p in got;
  }

  lemma NextArrives(s: Inbound, frames: seq<StreamFrame>, w: seq<byte>, got: set<nat>, p: nat)
    requires Cut(frames, w) && Assembled(s, frames, w, got, p) && p == Lead(got, 0, |frames|) && p < |frames|
             && !s.violation
    requires s.offset == frames[p].offset && frames[p].data != []
    ensures var s' := Release(Append(s, frames[p].offset, frames[p].data));
            !s'.violation && Assembled(s', frames, w, got + {p}, Lead(got + {p}, 0, |frames|))
  {
    var got', f := got + {p}, frames[p];
    LeadUnique(got', Lead(got', p + 1, |frames|), |frames|);
    hide Lead, Release;
    assert CutAt(frames, w, p);
    var s1 := Append(s, f.offset, f.data);
    AppendAssembled(s, s1, frames, w, got, p);
    ReleaseAssembles(s1, frames, w, got', p + 1);
    ReleaseGrows(s1);
  }

  lemma AppendAssembled(s: Inbound, s1: Inbound, frames: seq<StreamFrame>, w: seq<byte>, got: set<nat>, p: nat)
    requires Assembled(s, frames, w, got, p) && p < |frames| && p !in got
    requires s1.ooo == s.ooo && s1.offset == Boundary(frames, |w|, p + 1)
    ensures Assembled(s1, frames, w, got + {p}, p + 1)
  {
    var got' := got + {p};
    forall k | k in s1.ooo ensures exists i :: i >= p + 1 && Waits(frames, got', i, k, s1.ooo[k]) {
      var i :| i >= p && Waits(frames, got, i, k, s.ooo[k]);
      assert i != p && Waits(frames, got', i, k, s1.ooo[k]);
    }
  }

  lemma HoldArrives(s: Inbound, frames: seq<StreamFrame>, w: seq<byte>, got: set<nat>, p: nat, j: nat)
    requires Cut(frames, w) && Assembled(s, frames, w, got, p) && p == Lead(got, 0, |frames|) && p < j < |frames|
    requires s.oooBytes == Total(s.ooo) && |w| - s.offset <= MAX_RECV_OOO && !s.violation
    ensures var s' := Hold(s, frames[j].offset, frames[j].data).0;
            !s'.violation && Assembled(s', frames, w, got + {j}, Lead(got + {j}, 0, |frames|))
  {
    var got', f := got + {j}, frames[j];
    LeadUnique(got', p, |frames|);
    hide Lead;
    WaitsMore(frames, got, got', s.ooo, p);
    if f.offset in s.ooo {
      var i :| i >= p && Waits(frames, got, i, f.offset, s.ooo[f.offset]);
      OneOffset(frames, w, i, j);
    } else {
      var m := s.ooo[f.offset := f.data];
      forall k | k in m ensures exists i :: i >= p && Waits(frames, got', i, k, m[k]) {
        if k == f.offset { assert Waits(frames, got', j, k, m[k]); }
      }
      WaitingFits(m, frames, w, got', p);
      TotalWith(s.ooo, f.offset, f.data);
      forall i | p <= i < |frames| && i in got' ensures frames[i].offset in m && m[frames[i].offset] == frames[i].data {
        if i != j && frames[i].offset == f.offset { OneOffset(frames, w, i, j); }
      }
    }
  }

  /** No two frames begin at one offset. */
  lemma OneOffset(frames: seq<StreamFrame>, w: seq<byte>, i: nat, j: nat)
    requires Cut(frames, w) && i < |frames| && j < |frames| && frames[i].offset == frames[j].offset
    ensures i == j
  {
    assert CutAt(frames, w, i) && CutAt(frames, w, j);
    if i < j { CutOrdered(frames, w, i, j); }
    if j < i { CutOrdered(frames, w, j, i); }
  }

  // ----- Sending more -----

  lemma CutMore(frames: seq<StreamFrame>, w: seq<byte>, data: seq<byte>, chunk: nat, isSyn: bool)
    requires Cut(frames, w) && chunk > 0
    ensures Cut(frames + Chunks(|w|, data, chunk, isSyn, false), w + data)
  {
    var fs := Chunks(|w|, data, chunk, isSyn, false);
    ChunksCut(|w|, data, chunk, isSyn, false);
    hide Chunks;
    var all, w' := frames + fs, w + data;
    forall i | 0 <= i < |all| ensures CutAt(all, w', i) {
      if i < |frames| {
        assert CutAt(frames, w, i);
        OldFrame(frames, w, fs, data, i);
      } else {
        assert fs[i - |frames|] in fs;
        NewFrame(frames, w, fs, data, chunk, i - |frames|);
      }
    }
  }

  lemma OldFrame(frames: seq<StreamFrame>, w: seq<byte>, fs: seq<StreamFrame>, data: seq<byte>, i: nat)
    requires i < |frames| && CutAt(frames, w, i) && Chain(fs, |w|, |w| + |data|)
    ensures CutAt(frames + fs, w + data, i)
  {
    StillWritten(w, data, frames[i].offset, frames[i].End());
  }

  lemma NewFrame(frames: seq<StreamFrame>, w: seq<byte>, fs: seq<StreamFrame>, data: seq<byte>, chunk: nat, j: nat)
    requires j < |fs| && Chain(fs, |w|, |w| + |data|) && Slice(fs[j], |w|, data, chunk) && !fs[j].isFin
    ensures CutAt(frames + fs, w + data, |frames| + j)
  {
    AfterWritten(w, data, fs[j].offset, fs[j].End());
  }

  lemma AfterWritten(w: seq<byte>, data: seq<byte>, a: nat, b: nat)
    requires |w| <= a <= b <= |w| + |data|
    ensures (w + data)[a..b] == data[a - |w|..b - |w|]
  {
  }

  lemma StillWritten(w: seq<byte>, data: seq<byte>, a: nat, b: nat)
    requires a <= b <= |w|
    ensures (w + data)[a..b] == w[a..b]
  {
  }

  lemma AssembledMore(s: Inbound, frames: seq<StreamFrame>, w: seq<byte>, got: set<nat>, more: seq<StreamFrame>,
                      w': seq<byte>)
    requires Assembled(s, frames, w, got, Lead(got, 0, |frames|)) && (forall i <- got :: i < |frames|)
    requires |w| <= |w'| && Boundary(more, |w'|, 0) == |w|
    ensures Assembled(s, frames + more, w', got, Lead(got, 0, |frames + more|))
  {
    var all, p := frames + more, Lead(got, 0, |frames|);
    LeadUnique(got, p, |all|);
    hide Lead;
    forall k | k in s.ooo ensures exists i :: i >= p && Waits(all, got, i, k, s.ooo[k]) {
      var i :| i >= p && Waits(frames, got, i, k, s.ooo[k]);
      assert Waits(all, got, i, k, s.ooo[k]);
    }
  }

  // ----- Every run -----

  ghost predicate LinkOk(l: Link) {
    && LimitsOk(l.snd, l.rcv.fc, l.updates)
    && l.snd.dataSent == |l.written| && Cut(l.frames, l.written) && (forall i <- l.got :: i < |l.frames|)
    && Assembled(l.rcv, l.frames, l.written, l.got, Lead(l.got, 0, |l.frames|))
    && Accounted(l.rcv) && !l.rcv.violation && Faithful(l.rcv, l.read, l.written)
  }

  lemma NewLinkOk()
    ensures LinkOk(NewLink())
  {
    var l := NewLink();
    assert LimitsOk(l.snd, l.rcv.fc, l.updates);
    assert Cut(l.frames, l.written);
    NoneArrived(l.rcv);
    hide LimitsOk, Cut, Accounted, Faithful, Assembled, Lead;
  }

  lemma NoneArrived(s: Inbound)
    requires s == NewInbound(Open)
    ensures Accounted(s) && Faithful(s, [], []) && Assembled(s, [], [], {}, Lead({}, 0, 0))
  {
    hide Lead, Accounted;
    NewAccounted(Open);
    LeadUnique({}, 0, 0);
    NewAssembled(s);
  }

  lemma NewAssembled(s: Inbound)
    requires s == NewInbound(Open)
    ensures Faithful(s, [], []) && Assembled(s, [], [], {}, 0)
  {
    hide Waits, Within;
  }

  lemma SendsOk(l: Link, data: seq<byte>, chunk: nat, credit: nat, isSyn: bool)
    requires LinkOk(l) && chunk > 0
    ensures LinkOk(SendStep(l, data, chunk, credit, isSyn))
  {
    var n := Batch(|data|, chunk, SendWindowAvailable(l.snd), credit);
    var w' := l.written + data[..n];
    SendKeepsLimits(l.snd, l.rcv.fc, l.updates, n);
    CutMore(l.frames, l.written, data[..n], chunk, isSyn);
    ChunksCut(|l.written|, data[..n], chunk, isSyn, false);
    AssembledMore(l.rcv, l.frames, l.written, l.got, Chunks(|l.written|, data[..n], chunk, isSyn, false), w');
    FaithfulMore(l.rcv, l.read, l.written, w');
    hide LimitsOk, Cut, Assembled, Lead, Faithful, Accounted, Chunks, Batch, Chain, Flagged, Slice;
  }

  lemma ArrivesOk(l: Link, j: nat)
    requires LinkOk(l) && j < |l.frames|
    ensures LinkOk(l.(rcv := DeliverFrame(l.rcv, l.frames[j]), got := l.got + {j}))
  {
    var s, f := l.rcv, l.frames[j];
    var s' := DeliverFrame(s, f);
    assert CutAt(l.frames, l.written, j);
    ArrivesAssembled(s, l.frames, l.written, l.got, j);
    hide DeliverFrame, Place, Lead, Cut, Accounted, Faithful, Assembled;
    DeliverPlaces(s, f);
    DeliverBooks(s, f);
    DeliverAccounts(s, f);
    DeliverFaithful(s, f, l.read, l.written);
    AsPlaced(Place(s, f.offset, f.data).0, s', l.frames, l.written, l.got + {j}, Lead(l.got + {j}, 0, |l.frames|));
    hide LimitsOk;
    LimitsRead(l.snd, s.fc, s'.fc, l.updates);
  }

  /** Limits do not look at what was received. */
  lemma LimitsRead(snd: Limits, rcv: Limits, rcv': Limits, updates: set<int>)
    requires LimitsOk(snd, rcv, updates) && rcv' == rcv.(dataRecvd := rcv'.dataRecvd)
    ensures LimitsOk(snd, rcv', updates)
  {
  }

  lemma AsPlaced(s: Inbound, s': Inbound, frames: seq<StreamFrame>, w: seq<byte>, got: set<nat>, p: nat)
    requires Assembled(s, frames, w, got, p) && s'.ooo == s.ooo && s'.offset == s.offset
    ensures Assembled(s', frames, w, got, p)
  {
  }

  lemma ReadsOk(l: Link, max: nat)
    requires LinkOk(l)
    ensures LinkOk(ReadStep(l, max))
  {
    var s := l.rcv;
    var l' := ReadStep(l, max);
    ReadFaithful(s, max, l.read, l.written);
    ReadAccounts(s, max);
    if s.buf != [] { ConsumeKeepsLimits(l.snd, s.fc, l.updates, Min(max, |s.buf|)); }
    AsPlaced(s, l'.rcv, l.frames, l.written, l.got, Lead(l.got, 0, |l.frames|));
    hide LimitsOk, Cut, Assembled, Lead, Faithful, Accounted;
  }

  lemma EventOk(l: Link, e: Event)
    requires LinkOk(l) && Possible(l, e)
    ensures LinkOk(Apply(l, e))
  {
    match e
    case Sends(data, chunk, credit, isSyn) => SendsOk(l, data, chunk, credit, isSyn);
    case Arrives(i) => ArrivesOk(l, i);
    case Reads(max) => ReadsOk(l, max);
    case UpdateArrives(limit) =>
      hide Cut, Assembled, Lead, Faithful, Accounted, ApplyWindowUpdate;
      UpdateKeepsLimits(l.snd, l.rcv.fc, l.updates, limit);
      SentAlone(l.snd, limit % TWO_32);
    case BlockedArrives =>
      AnswerKeepsLimits(l.snd, l.rcv.fc, l.updates);
      AsPlaced(l.rcv, AnswerStep(l).rcv, l.frames, l.written, l.got, Lead(l.got, 0, |l.frames|));
      hide Cut, Assembled, Lead;
  }

  lemma SentAlone(l: Limits, wire: nat)
    ensures ApplyWindowUpdate(l, wire).dataSent == l.dataSent
  {
    hide Reconstruct;
  }

  lemma {:induction false} RunOk(events: seq<Event>)
    ensures LinkOk(Run(NewLink(), events))
  {
    hide LinkOk, Possible, Apply;
    if events == [] {
      NewLinkOk();
    } else {
      var l1, e := Run(NewLink(), events[..|events| - 1]), events[|events| - 1];
      RunOk(events[..|events| - 1]);
      if Possible(l1, e) { EventOk(l1, e); }
    }
  }

  /** Two-party safety: the sender never passes its limit, the limit never passes what
      the peer advertised, nor that what the peer will hold; what the receiver holds
      unread fits its window, so the backstop is never hit. Every update still in the
      network that is not too stale reads back exactly. */
  lemma FlowSafety(events: seq<Event>)
    ensures var l := Run(NewLink(), events);
            && l.snd.dataSent <= l.snd.maxStreamData <= l.rcv.fc.lastAdvertised
            && l.rcv.fc.lastAdvertised <= l.rcv.fc.dataConsumed + l.rcv.fc.recvWindow
            && (l.snd.blocked <==> SendWindowAvailable(l.snd) == 0)
            && BufferedBytes(l.rcv.fc) <= l.rcv.fc.recvWindow && !l.rcv.violation
            && (forall u <- l.updates :: l.snd.maxStreamData - u < HALF ==>
                  Reconstruct(u % TWO_32, l.snd.maxStreamData) == u)
  {
    var l := Run(NewLink(), events);
    RunOk(events);
    hide Run, Reconstruct, Lead;
    WaitingFits(l.rcv.ooo, l.frames, l.written, l.got, Lead(l.got, 0, |l.frames|));
    hide Assembled, Cut, Faithful;
    forall u | u in l.updates && l.snd.maxStreamData - u < HALF
      ensures Reconstruct(u % TWO_32, l.snd.maxStreamData) == u
    {
      UpdateReadsBack(l.snd, l.rcv.fc, l.updates, u);
    }
  }

  /** Progress: at least half a window of credit is always on offer, and a window is
      earned, by consumption, before it grows. */
  lemma FlowProgress(events: seq<Event>)
    ensures var fc := Run(NewLink(), events).rcv.fc;
            && fc.lastAdvertised - fc.dataConsumed >= fc.recvWindow / 2
            && fc.recvWindow <= MAX_WINDOW && fc.recvWindow <= INITIAL_WINDOW + 2 * fc.dataConsumed
  {
    RunOk(events);
    hide Run, Assembled, Cut, Faithful, Accounted, Lead;
  }

  /** Whatever updates were lost: one STREAM_DATA_BLOCKED answered, and the answer
      received, lifts the sender to a full window past what was consumed. */
  lemma BlockedRepairs(events: seq<Event>)
    ensures var l := Run(NewLink(), events);
            var l1 := AnswerStep(l);
            var u := l1.rcv.fc.lastAdvertised;
            && Possible(l1, UpdateArrives(u))
            && Apply(l1, UpdateArrives(u)).snd.maxStreamData == l.rcv.fc.dataConsumed + l.rcv.fc.recvWindow
  {
    var l := Run(NewLink(), events);
    RunOk(events);
    hide Run, Assembled, Cut, Faithful, Accounted, Lead, Reconstruct;
    AnswerKeepsLimits(l.snd, l.rcv.fc, l.updates);
    var l1 := AnswerStep(l);
    UpdateKeepsLimits(l1.snd, l1.rcv.fc, l1.updates, l1.rcv.fc.lastAdvertised);
  }

  /** Completeness of re-assembly: the delivered offset is always the end of the longest
      run of frames that have all arrived, and the counters say what is held. */
  lemma ReassemblyComplete(events: seq<Event>)
    ensures var l := Run(NewLink(), events);
            && l.rcv.offset == Boundary(l.frames, |l.written|, Lead(l.got, 0, |l.frames|))
            && Accounted(l.rcv) && l.rcv.offset <= |l.written| && l.read + l.rcv.buf == l.written[..l.rcv.offset]
  {
    RunOk(events);
    hide Run, Lead, Accounted;
  }
}
