/** What the receive buffer's count is worth. The release loop looks for a chunk at
    exactly the delivered offset, so a chunk that a longer frame delivered past stays in
    the map for ever and keeps counting as buffered; and chunks that overlap count their
    common bytes twice. This module says exactly when the count is right: after any series
    of frames and reads, if and only if no frame ever met a chunk already held. */
module Reassembly {
  import opened Frames
  import opened FlowControl
  import opened Streams

  /** A chunk that was delivered past is never released, whatever arrives. */
  lemma StaleForever(s: Inbound, f: StreamFrame, k: nat)
    requires k in s.ooo && k < s.offset
    ensures var s' := DeliverFrame(s, f); k in s'.ooo && s'.ooo[k] == s.ooo[k] && k < s'.offset
  {
    DeliverPlaces(s, f);
    hide DeliverFrame;
    if f.offset <= s.offset < f.End() { ReleaseKeepsStale(Append(s, f.offset, f.data), k); }
  }

  lemma {:induction false} ReleaseKeepsStale(s: Inbound, k: nat)
    requires k in s.ooo && k < s.offset
    ensures var r := Release(s); k in r.ooo && r.ooo[k] == s.ooo[k] && k < r.offset
    decreases |s.ooo|
  {
    if s.offset in s.ooo { ReleaseKeepsStale(Pop(s), k); }
  }

  // ----- When no byte is held twice or behind -----

  ghost predicate Clear(m: map<nat, seq<byte>>, j: nat, k: nat)
    requires j in m && k in m
  {
    j < k ==> j + |m[j]| <= k
  }

  /** Every held chunk is ahead of the delivered offset and apart from the others. */
  ghost predicate Exact(s: Inbound) {
    && (forall k <- s.ooo :: k > s.offset && s.ooo[k] != [])
    && (forall j, k {:trigger Clear(s.ooo, j, k)} :: j in s.ooo && k in s.ooo ==> Clear(s.ooo, j, k))
  }

  /** The frame `lo..hi` meets no held chunk. */
  ghost predicate MeetsNone(s: Inbound, lo: nat, hi: nat) {
    forall k <- s.ooo :: hi <= k || k + |s.ooo[k]| <= lo
  }

  lemma {:induction false} ReleaseExact(s: Inbound)
    requires forall k <- s.ooo :: k >= s.offset && s.ooo[k] != []
    requires forall j, k {:trigger Clear(s.ooo, j, k)} :: j in s.ooo && k in s.ooo ==> Clear(s.ooo, j, k)
    ensures Exact(Release(s))
    decreases |s.ooo|
  {
    if s.offset in s.ooo {
      var r := Pop(s);
      forall k | k in r.ooo ensures k >= r.offset { assert Clear(s.ooo, s.offset, k); }
      forall j, k | j in r.ooo && k in r.ooo ensures Clear(r.ooo, j, k) { assert Clear(s.ooo, j, k); }
      ReleaseExact(r);
    }
  }

  lemma HoldExact(s: Inbound, offset: nat, data: seq<byte>)
    requires Exact(s) && data != [] && offset > s.offset && offset !in s.ooo
    ensures var s' := s.(ooo := s.ooo[offset := data], oooBytes := s.oooBytes + |data|);
            Exact(s') <==> MeetsNone(s, offset, offset + |data|)
  {
    var s' := s.(ooo := s.ooo[offset := data], oooBytes := s.oooBytes + |data|);
    if MeetsNone(s, offset, offset + |data|) {
      forall j, k | j in s'.ooo && k in s'.ooo ensures Clear(s'.ooo, j, k) {
        if j in s.ooo && k in s.ooo { assert Clear(s.ooo, j, k); }
      }
    }
    if Exact(s') {
      forall k | k in s.ooo ensures offset + |data| <= k || k + |s.ooo[k]| <= offset {
        assert Clear(s'.ooo, offset, k) && Clear(s'.ooo, k, offset);
      }
    }
  }

  lemma AppendExact(s: Inbound, offset: nat, data: seq<byte>)
    requires Exact(s) && offset <= s.offset < offset + |data|
    ensures Exact(Release(Append(s, offset, data))) <==> MeetsNone(s, offset, offset + |data|)
  {
    var s1 := Append(s, offset, data);
    if MeetsNone(s, offset, offset + |data|) {
      ReleaseExact(s1);
    } else {
      var k: nat :| k in s.ooo && !(offset + |data| <= k || k + |s.ooo[k]| <= offset);
      ReleaseKeepsStale(s1, k);
    }
  }

  /** Exactly when a new frame spoils a stream whose chunks are apart: the backstop does
      not turn it away, its slot is free, and it meets a chunk that is already held. */
  lemma ExactUnlessMet(s: Inbound, offset: nat, data: seq<byte>)
    requires Exact(s) && data != [] && !Place(s, offset, data).0.violation
    ensures Exact(Place(s, offset, data).0) <==>
            offset + |data| <= s.offset || offset in s.ooo || MeetsNone(s, offset, offset + |data|)
  {
    if offset + |data| > s.offset {
      if offset <= s.offset {
        AppendExact(s, offset, data);
      } else if offset !in s.ooo {
        HoldExact(s, offset, data);
      }
    }
    hide Release, Append;
  }

  /** What the release loop always leaves: no chunk at the delivered offset, none empty. */
  ghost predicate Shaped(s: Inbound) { forall k <- s.ooo :: k != s.offset && s.ooo[k] != [] }

  lemma {:induction false} ReleaseShaped(s: Inbound)
    requires forall k <- s.ooo :: s.ooo[k] != []
    ensures Shaped(Release(s))
    decreases |s.ooo|
  {
    if s.offset in s.ooo { ReleaseShaped(Pop(s)); }
  }

  lemma PlaceShaped(s: Inbound, offset: nat, data: seq<byte>)
    requires Shaped(s) && data != []
    ensures Shaped(Place(s, offset, data).0)
  {
    if offset <= s.offset < offset + |data| { ReleaseShaped(Append(s, offset, data)); }
    hide Release;
  }

  /** A chunk was delivered past, or two overlap. */
  ghost predicate Spoilt(s: Inbound, j: nat, k: nat) {
    j in s.ooo && k in s.ooo && j < k < j + |s.ooo[j]|
  }

  ghost predicate Stale(s: Inbound, k: nat) { k in s.ooo && k < s.offset }

  lemma InexactMeans(s: Inbound)
    requires Shaped(s)
    ensures !Exact(s) <==> (exists k :: Stale(s, k)) || exists j, k :: Spoilt(s, j, k)
  {
    if j, k :| j in s.ooo && k in s.ooo && !Clear(s.ooo, j, k) {
      assert Spoilt(s, j, k);
    }
    if j, k :| Spoilt(s, j, k) {
      assert !Clear(s.ooo, j, k);
    }
    forall k | k in s.ooo && k <= s.offset ensures Stale(s, k) { }
  }

  /** Whichever of two overlapping chunks the loop reaches, it leaves the other behind. */
  lemma {:induction false} ReleaseSpoils(s: Inbound, j: nat, k: nat)
    requires Spoilt(s, j, k)
    ensures var r := Release(s); Spoilt(r, j, k) || Stale(r, j) || Stale(r, k)
    decreases |s.ooo|
  {
    if s.offset in s.ooo {
      if s.offset == j {
        ReleaseKeepsStale(Pop(s), k);
      } else if s.offset == k {
        ReleaseKeepsStale(Pop(s), j);
      } else {
        ReleaseSpoils(Pop(s), j, k);
      }
    }
  }

  /** Once spoilt, the stream stays so, whatever arrives. */
  lemma SpoiltForever(s: Inbound, f: StreamFrame)
    requires Shaped(s) && !Exact(s)
    ensures !Exact(DeliverFrame(s, f))
  {
    hide *;
    var s' := DeliverFrame(s, f);
    DeliverShaped(s, f);
    InexactMeans(s);
    InexactMeans(s');
    if k :| Stale(s, k) {
      StaysStale(s, f, k);
    } else {
      var j, k :| Spoilt(s, j, k);
      StaysSpoilt(s, f, j, k);
    }
  }

  lemma DeliverShaped(s: Inbound, f: StreamFrame)
    requires Shaped(s)
    ensures Shaped(DeliverFrame(s, f))
  {
    DeliverPlaces(s, f);
    if f.data != [] { PlaceShaped(s, f.offset, f.data); }
    hide DeliverFrame, Place;
  }

  lemma StaysStale(s: Inbound, f: StreamFrame, k: nat)
    requires Stale(s, k)
    ensures Stale(DeliverFrame(s, f), k)
  {
    StaleForever(s, f, k);
    hide DeliverFrame;
  }

  lemma StaysSpoilt(s: Inbound, f: StreamFrame, j: nat, k: nat)
    requires Spoilt(s, j, k)
    ensures var s' := DeliverFrame(s, f); Spoilt(s', j, k) || Stale(s', j) || Stale(s', k)
  {
    DeliverPlaces(s, f);
    hide DeliverFrame, Release;
    if f.offset <= s.offset < f.End() { ReleaseSpoils(Append(s, f.offset, f.data), j, k); }
  }

  // ----- The bytes really held -----

  function Interval(lo: nat, hi: nat): (r: set<nat>)
    ensures forall b :: b in r <==> lo <= b < hi
    ensures |r| == Max(hi - lo, 0)
    decreases hi
  {
    if lo >= hi then {} else Interval(lo, hi - 1) + {hi - 1}
  }

  ghost function ChunkBytes(m: map<nat, seq<byte>>, k: nat): set<nat>
    requires k in m
  {
    Interval(k, k + |m[k]|)
  }

  /** The distinct bytes that wait at or beyond `offset`. */
  ghost function Ahead(m: map<nat, seq<byte>>, offset: nat): set<nat> {
    set k, b | k in m && b in ChunkBytes(m, k) && offset <= b :: b
  }

  ghost predicate Waits(m: map<nat, seq<byte>>, b: nat) { exists k :: k in m && b in ChunkBytes(m, k) }

  lemma AheadMeans(m: map<nat, seq<byte>>, offset: nat, b: nat)
    ensures b in Ahead(m, offset) <==> offset <= b && Waits(m, b)
  {
  }

  lemma WaitsWithout(m: map<nat, seq<byte>>, k: nat, b: nat)
    requires k in m
    ensures Waits(m, b) <==> Waits(m - {k}, b) || b in ChunkBytes(m, k)
  {
    var rest := m - {k};
    assert forall j <- rest :: ChunkBytes(rest, j) == ChunkBytes(m, j);
    hide ChunkBytes;
    if j: nat :| j in m && b in ChunkBytes(m, j) {
      assert j == k || j in rest;
    }
    if j: nat :| j in rest && b in ChunkBytes(rest, j) { assert j in m && b in ChunkBytes(m, j); }
  }

  /** The bytes of one chunk that count. */
  ghost function Share(m: map<nat, seq<byte>>, offset: nat, k: nat): set<nat>
    requires k in m
  {
    Interval(Max(k, offset), k + |m[k]|)
  }

  lemma AheadWithout(m: map<nat, seq<byte>>, offset: nat, k: nat)
    requires k in m
    ensures Ahead(m, offset) == Ahead(m - {k}, offset) + Share(m, offset, k)
  {
    forall b ensures b in Ahead(m, offset) <==> b in Ahead(m - {k}, offset) + Share(m, offset, k) {
      AheadMeans(m, offset, b);
      AheadMeans(m - {k}, offset, b);
      WaitsWithout(m, k, b);
      assert b in Share(m, offset, k) <==> offset <= b && b in ChunkBytes(m, k);
      hide *;
    }
  }

  /** Every chunk lies at or beyond `offset`, apart from the others. */
  ghost predicate Lies(m: map<nat, seq<byte>>, offset: nat) {
    && (forall k <- m :: k >= offset)
    && (forall j, k {:trigger Clear(m, j, k)} :: j in m && k in m ==> Clear(m, j, k))
  }

  /** Two chunks are apart exactly when they share no byte. */
  lemma ClearMeans(m: map<nat, seq<byte>>, j: nat, k: nat)
    requires j in m && k in m && j != k && m[j] != [] && m[k] != []
    ensures Clear(m, j, k) && Clear(m, k, j) <==> ChunkBytes(m, j) !! ChunkBytes(m, k)
  {
    assert j < k < j + |m[j]| ==> k in ChunkBytes(m, j) && k in ChunkBytes(m, k);
    assert k < j < k + |m[k]| ==> j in ChunkBytes(m, j) && j in ChunkBytes(m, k);
  }

  /** Chunk `k` is apart from the others. */
  ghost predicate ClearOf(m: map<nat, seq<byte>>, k: nat)
    requires k in m
  {
    forall j {:trigger Clear(m, j, k)} :: j in m && j != k ==> Clear(m, j, k) && Clear(m, k, j)
  }

  lemma ApartMeans(m: map<nat, seq<byte>>, k: nat)
    requires k in m && forall j <- m :: m[j] != []
    ensures (forall b :: b in ChunkBytes(m, k) ==> !Waits(m - {k}, b)) <==> ClearOf(m, k)
  {
    var rest := m - {k};
    forall j | j in rest ensures ChunkBytes(rest, j) == ChunkBytes(m, j) { }
    forall j | j in rest
      ensures Clear(m, j, k) && Clear(m, k, j) <==> ChunkBytes(m, k) !! ChunkBytes(rest, j)
    {
      ClearMeans(m, j, k);
    }
    hide ChunkBytes, Clear;
    if ClearOf(m, k) {
      forall b | b in ChunkBytes(m, k) ensures !Waits(rest, b) {
        forall j | j in rest ensures b !in ChunkBytes(rest, j) { assert Clear(m, j, k); }
      }
    }
    if forall b :: b in ChunkBytes(m, k) ==> !Waits(rest, b) {
      forall j | j in m && j != k ensures Clear(m, j, k) && Clear(m, k, j) {
        assert j in rest;
        forall b | b in ChunkBytes(m, k) ensures b !in ChunkBytes(rest, j) { assert !Waits(rest, b); }
      }
    }
  }

  lemma DisjointMeans(m: map<nat, seq<byte>>, offset: nat, k: nat)
    requires k in m && k >= offset && forall j <- m :: m[j] != []
    ensures Ahead(m - {k}, offset) !! Share(m, offset, k) <==> ClearOf(m, k)
  {
    ApartMeans(m, k);
    assert Share(m, offset, k) == ChunkBytes(m, k);
    forall b | b in ChunkBytes(m, k) ensures b in Ahead(m - {k}, offset) <==> Waits(m - {k}, b) {
      AheadMeans(m - {k}, offset, b);
    }
    hide ChunkBytes, Waits, ClearOf, Ahead, Share;
  }

  lemma PairsWithout(m: map<nat, seq<byte>>, k: nat)
    requires k in m
    ensures (forall i, j {:trigger Clear(m, i, j)} :: i in m && j in m ==> Clear(m, i, j)) <==>
            && ClearOf(m, k)
            && forall i, j {:trigger Clear(m - {k}, i, j)} ::
                 i in m - {k} && j in m - {k} ==> Clear(m - {k}, i, j)
  {
    var rest := m - {k};
    if ClearOf(m, k) && forall i, j {:trigger Clear(rest, i, j)} :: i in rest && j in rest ==> Clear(rest, i, j) {
      forall i, j | i in m && j in m ensures Clear(m, i, j) {
        if i != k && j != k { assert Clear(rest, i, j); }
        if i == k && j != k { assert Clear(m, j, k); }
      }
    }
    if forall i, j {:trigger Clear(m, i, j)} :: i in m && j in m ==> Clear(m, i, j) {
      forall i, j | i in rest && j in rest ensures Clear(rest, i, j) { assert Clear(m, i, j); }
    }
  }

  lemma LiesWithout(m: map<nat, seq<byte>>, offset: nat, k: nat)
    requires k in m && forall j <- m :: m[j] != []
    ensures Lies(m, offset) <==>
            Lies(m - {k}, offset) && k >= offset && Ahead(m - {k}, offset) !! Share(m, offset, k)
  {
    hide Clear, ClearOf, Ahead, Share;
    PairsWithout(m, k);
    if k >= offset { DisjointMeans(m, offset, k); }
    if k >= offset && forall j <- m - {k} :: j >= offset {
      forall j | j in m ensures j >= offset { assert j == k || j in m - {k}; }
    }
  }

  /** The held bytes are never undercounted, and counted right exactly when the chunks
      lie apart and ahead. */
  lemma {:induction false} CountAhead(m: map<nat, seq<byte>>, offset: nat)
    requires forall k <- m :: m[k] != []
    ensures |Ahead(m, offset)| <= Total(m)
    ensures |Ahead(m, offset)| == Total(m) <==> Lies(m, offset)
    decreases |m|
  {
    if m == map[] {
      assert Ahead(m, offset) == {};
    } else {
      var k: nat :| k in m;
      assert |Share(m, offset, k)| <= |m[k]| && (|Share(m, offset, k)| == |m[k]| <==> k >= offset);
      hide *;
      TotalWithout(m, k);
      CountAhead(m - {k}, offset);
      AheadWithout(m, offset, k);
      LiesWithout(m, offset, k);
      Union(Ahead(m - {k}, offset), Share(m, offset, k));
    }
  }

  lemma Union(a: set<nat>, b: set<nat>)
    ensures |a + b| <= |a| + |b| && (|a + b| == |a| + |b| <==> a !! b)
  {
    assert |a + b| + |a * b| == |a| + |b|;
    if a !! b { assert a * b == {}; }
    if x :| x in a && x in b { assert x in a * b; }
  }

  /** What counts as buffered is what is buffered, each byte once. */
  ghost predicate CountRight(s: Inbound) { BufferedBytes(s.fc) == |s.buf| + |Ahead(s.ooo, s.offset)| }

  /** The count is right exactly when no chunk is stale and none overlap; otherwise it is
      too high. */
  lemma CountRightIfExact(s: Inbound)
    requires Accounted(s) && Shaped(s)
    ensures CountRight(s) <==> Exact(s)
    ensures BufferedBytes(s.fc) >= |s.buf| + |Ahead(s.ooo, s.offset)|
  {
    CountAhead(s.ooo, s.offset);
    assert Lies(s.ooo, s.offset) <==> Exact(s);
    hide Total, Ahead, Exact, Lies;
  }

  // ----- Any series of frames and reads -----

  datatype Act = Arrives(frame: StreamFrame) | Reads(max: nat)

  function Apply(s: Inbound, a: Act): Inbound {
    match a
    case Arrives(f) => DeliverFrame(s, f)
    case Reads(max) => Read(s, max).0
  }

  function Run(s: Inbound, acts: seq<Act>): Inbound {
    if acts == [] then s else Apply(Run(s, acts[..|acts| - 1]), acts[|acts| - 1])
  }

  /** The act is a frame that is new and meets a chunk already held. */
  ghost predicate MeetsHeld(s: Inbound, a: Act) {
    && a.Arrives? && a.frame.data != [] && a.frame.End() > s.offset && a.frame.offset !in s.ooo
    && !MeetsNone(s, a.frame.offset, a.frame.End())
  }

  lemma ApplyExact(s: Inbound, a: Act)
    requires Accounted(s) && Shaped(s) && !Apply(s, a).violation
    ensures var s' := Apply(s, a);
            Accounted(s') && Shaped(s') && !s.violation && (Exact(s') <==> Exact(s) && !MeetsHeld(s, a))
  {
    match a
    case Reads(max) =>
      ReadAccounts(s, max);
    case Arrives(f) =>
      DeliverAccounts(s, f);
      DeliverPlaces(s, f);
      StaysViolated(s, f);
      if f.data != [] { PlaceShaped(s, f.offset, f.data); }
      if Exact(s) {
        if f.data != [] { ExactUnlessMet(s, f.offset, f.data); }
      } else {
        SpoiltForever(s, f);
      }
      hide Accounted, Place, DeliverFrame;
  }

  /** No frame of the series meets a held chunk. */
  ghost predicate NeverMeets(s: Inbound, acts: seq<Act>) {
    forall i :: 0 <= i < |acts| ==> !MeetsHeld(Run(s, acts[..i]), acts[i])
  }

  lemma NeverMeetsLast(s: Inbound, acts: seq<Act>)
    requires acts != []
    ensures var n := |acts| - 1;
            NeverMeets(s, acts) <==> NeverMeets(s, acts[..n]) && !MeetsHeld(Run(s, acts[..n]), acts[n])
  {
    var n := |acts| - 1;
    hide MeetsHeld, Run;
    forall i | 0 <= i < n
      ensures MeetsHeld(Run(s, acts[..n][..i]), acts[..n][i]) <==> MeetsHeld(Run(s, acts[..i]), acts[i])
    {
      assert acts[..n][..i] == acts[..i];
    }
  }

  lemma NewExact(phase: Phase)
    ensures var s := NewInbound(phase); Accounted(s) && Shaped(s) && Exact(s)
  {
    NewAccounted(phase);
    hide Accounted, Clear;
  }

  lemma NoActs(s: Inbound)
    ensures Run(s, []) == s && NeverMeets(s, [])
  {
    hide Apply, MeetsHeld;
  }

  lemma {:induction false} RunExact(phase: Phase, acts: seq<Act>)
    requires !Run(NewInbound(phase), acts).violation
    ensures var s := Run(NewInbound(phase), acts);
            Accounted(s) && Shaped(s) && (Exact(s) <==> NeverMeets(NewInbound(phase), acts))
  {
    var s0 := NewInbound(phase);
    if acts == [] {
      hide *;
      NewExact(phase);
      NoActs(s0);
    } else {
      var n := |acts| - 1;
      assert Run(s0, acts) == Apply(Run(s0, acts[..n]), acts[n]);
      hide *;
      NotYet(Run(s0, acts[..n]), acts[n]);
      RunExact(phase, acts[..n]);
      ApplyExact(Run(s0, acts[..n]), acts[n]);
      NeverMeetsLast(s0, acts);
    }
  }

  lemma NotYet(s: Inbound, a: Act)
    requires !Apply(s, a).violation
    ensures !s.violation
  {
    if a.Arrives? { StaysViolated(s, a.frame); }
    hide DeliverFrame;
  }

  /** After any series of frames and reads within the backstop, the count is right if and
      only if no frame of the series met a chunk already held when it came. */
  lemma CountRightExactly(phase: Phase, acts: seq<Act>)
    requires !Run(NewInbound(phase), acts).violation
    ensures CountRight(Run(NewInbound(phase), acts)) <==>
            forall i :: 0 <= i < |acts| ==> !MeetsHeld(Run(NewInbound(phase), acts[..i]), acts[i])
  {
    RunExact(phase, acts);
    CountRightIfExact(Run(NewInbound(phase), acts));
    hide Run, Accounted, Shaped, Exact, CountRight, MeetsHeld, NewInbound;
  }

  // ----- What the count is worth -----

  lemma {:induction false} LeastChunk(m: map<nat, seq<byte>>, any: nat) returns (k: nat)
    requires any in m
    ensures k in m && forall j <- m :: k <= j
    decreases any
  {
    k := any;
    if j :| j in m && j < any { k := LeastChunk(m, j); }
  }

  /** Chunks apart from each other hold no more than the room they lie in. */
  lemma {:induction false} ChunksFit(m: map<nat, seq<byte>>, lo: nat, hi: nat)
    requires lo <= hi && forall k <- m :: lo <= k && k + |m[k]| <= hi
    requires forall j, k {:trigger Clear(m, j, k)} :: j in m && k in m ==> Clear(m, j, k)
    ensures Total(m) <= hi - lo
    decreases |m|
  {
    if m != map[] {
      var any: nat :| any in m;
      var k: nat := LeastChunk(m, any);
      var rest := m - {k};
      forall j | j in rest ensures k + |m[k]| <= j { assert Clear(m, k, j); }
      forall i, j | i in rest && j in rest ensures Clear(rest, i, j) { assert Clear(m, i, j); }
      ChunksFit(rest, k + |m[k]|, hi);
      TotalWithout(m, k);
    }
  }

  /** With nothing stale, what counts as buffered is no more than the peer has written
      and the application has not read. */
  lemma BufferedIsReal(s: Inbound, read: seq<byte>, w: seq<byte>)
    requires Exact(s) && Accounted(s) && Faithful(s, read, w)
    ensures BufferedBytes(s.fc) <= |w| - s.fc.dataConsumed
  {
    hide Total;
    ChunksFit(s.ooo, s.offset, |w|);
  }

  /** The hypothesis is needed: the tail of a packet re-cut anywhere arrives, then the
      packet itself as it was first sent. All of it is read, and the tail still counts as
      buffered. */
  lemma CountDrifts(phase: Phase, data: seq<byte>, cut: nat, isSyn: bool)
    requires 0 < cut < |data| <= MAX_RECV_OOO
    ensures var s1 := DeliverFrame(NewInbound(phase), StreamFrame(false, false, cut, data[cut..]));
            var s2 := DeliverFrame(s1, StreamFrame(false, isSyn, 0, data));
            var (s3, r, _) := Read(s2, |data|);
            && r == Bytes(data) && s3.buf == [] && s3.fc.dataConsumed == |data| && !s3.violation
            && BufferedBytes(s3.fc) == |data| - cut && !Exact(s3)
  {
    var s0, late := NewInbound(phase), data[cut..];
    var s1 := DeliverFrame(s0, StreamFrame(false, false, cut, late));
    assert s1 == s0.(ooo := map[cut := late], oooBytes := |late|, fc := OnDataReceived(s0.fc, |late|));
    var t := Append(s1, 0, data);
    assert Release(t) == t;
    assert [] + data == data && data[0..] == data && data[..|data|] == data && data[|data|..] == [];
    assert cut in t.ooo && cut < t.offset;
  }
}
