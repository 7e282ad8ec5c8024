/** A stream: bytes chunked on the way out, re-assembled by offset on the way in. */
module Streams {
  import opened Frames
  import opened FlowControl

  const MAX_RECV_OOO: nat := 2 * MAX_WINDOW
  const SEND_BATCH_MAX: nat := 16

  datatype Phase = Idle | Open | HalfClosedLocal | HalfClosedRemote | Closed | Reset

  /** The receive side, with the flow-control counters it drives. */
  datatype Inbound = Inbound(
    buf: seq<byte>, ooo: map<nat, seq<byte>>, offset: nat, oooBytes: int, violation: bool,
    finSeen: bool, finReceived: bool, finalSize: nat, phase: Phase, fc: Limits)

  function NewInbound(phase: Phase): Inbound {
    Inbound([], map[], 0, 0, false, false, false, 0, phase, Start(INITIAL_WINDOW, INITIAL_WINDOW))
  }

  // ----- Chunking -----

  /** Consecutive frames of at most `size` bytes: SYN on the first, FIN on the last. */
  function Chunks(offset: nat, data: seq<byte>, size: nat, isSyn: bool, isFin: bool): seq<StreamFrame>
    requires size > 0
    decreases |data|
  {
    if data == [] then []
    else
      var k := Min(size, |data|);
      [StreamFrame(isFin && k == |data|, isSyn, offset, data[..k])]
        + Chunks(offset + k, data[k..], size, false, isFin)
  }

  /** The frame carries its own slice of the data, and not too much of it. */
  ghost predicate Slice(f: StreamFrame, offset: nat, data: seq<byte>, size: nat) {
    && 0 < |f.data| <= size && offset <= f.offset && f.End() <= offset + |data|
    && f.data == data[f.offset - offset..f.End() - offset]
  }

  /** Consecutive frames from `lo` to `hi`. */
  ghost predicate Chain(fs: seq<StreamFrame>, lo: nat, hi: nat) {
    && (fs == [] ==> lo == hi)
    && (fs != [] ==> fs[0].offset == lo && fs[|fs| - 1].End() == hi)
    && (forall i :: 1 <= i < |fs| ==> fs[i].offset == fs[i - 1].End())
  }

  /** SYN only on the first, FIN only on the last. */
  ghost predicate Flagged(fs: seq<StreamFrame>, isSyn: bool, isFin: bool) {
    forall i :: 0 <= i < |fs| ==> (fs[i].isSyn <==> isSyn && i == 0) && (fs[i].isFin <==> isFin && i == |fs| - 1)
  }

  /** Chunking loses, repeats and moves no byte, and every frame but the last is full. */
  lemma {:induction false} ChunksCut(offset: nat, data: seq<byte>, size: nat, isSyn: bool, isFin: bool)
    requires size > 0
    ensures var fs := Chunks(offset, data, size, isSyn, isFin);
            && (forall f <- fs :: Slice(f, offset, data, size))
            && Chain(fs, offset, offset + |data|) && Flagged(fs, isSyn, isFin)
            && (forall i :: 0 <= i < |fs| - 1 ==> |fs[i].data| == size)
    decreases |data|
  {
    if data != [] {
      var k := Min(size, |data|);
      var rest := Chunks(offset + k, data[k..], size, false, isFin);
      ChunksCut(offset + k, data[k..], size, false, isFin);
      var fs := Chunks(offset, data, size, isSyn, isFin);
      assert fs == [StreamFrame(isFin && k == |data|, isSyn, offset, data[..k])] + rest;
      forall f | f in rest ensures Slice(f, offset, data, size) {
        SliceOfTail(f, offset, data, size, k);
      }
      assert rest == [] <==> k == |data|;
    }
  }

  /** As many frames as it takes, and no more. */
  lemma {:induction false} ChunkCount(offset: nat, data: seq<byte>, size: nat, isSyn: bool, isFin: bool)
    requires size > 0
    ensures var n := |Chunks(offset, data, size, isSyn, isFin)|;
            |data| <= n * size && (n > 0 ==> (n - 1) * size < |data|)
    decreases |data|
  {
    if data != [] {
      var k := Min(size, |data|);
      ChunkCount(offset + k, data[k..], size, false, isFin);
      var m: nat := |Chunks(offset + k, data[k..], size, false, isFin)|;
      assert (m + 1) * size == m * size + size;
      assert m > 0 ==> m * size == (m - 1) * size + size;
    }
  }

  lemma SliceOfTail(f: StreamFrame, offset: nat, data: seq<byte>, size: nat, k: nat)
    requires k <= |data| && Slice(f, offset + k, data[k..], size)
    ensures Slice(f, offset, data, size)
  {
    SliceOfSlice(data, k, |data|, f.offset - offset - k, f.End() - offset - k);
  }

  /** Frames of a chain are in order, so they do not overlap... */
  lemma {:induction false} ChainOrdered(fs: seq<StreamFrame>, lo: nat, hi: nat, i: nat, j: nat)
    requires Chain(fs, lo, hi) && i < j < |fs|
    ensures fs[i].End() <= fs[j].offset
    decreases j
  {
    if i < j - 1 { ChainOrdered(fs, lo, hi, i, j - 1); }
  }

  /** ...and they leave no byte out. */
  lemma ChainCovers(fs: seq<StreamFrame>, lo: nat, hi: nat, b: nat) returns (i: nat)
    requires Chain(fs, lo, hi) && lo <= b < hi
    ensures i < |fs| && fs[i].offset <= b < fs[i].End()
  {
    i := 0;
    while fs[i].End() <= b
      invariant 0 <= i < |fs| && fs[i].offset <= b
      decreases |fs| - i
    {
      i := i + 1;
    }
  }

  /** The least of what there is to send, a batch, the peer's limit, and what the window
      admits or one chunk. */
  function Admissible(len: nat, chunk: nat, avail: nat, credit: nat): nat {
    Min(Min(len, SEND_BATCH_MAX * chunk), Min(avail, Max(credit, chunk)))
  }

  /** How much of `len` bytes one pass of Write hands over: within the peer's limit, at
      most one batch, no more than the window admits or one chunk, and whole chunks unless
      it ends the data or is a single one. Nothing more than that is held back. */
  function Batch(len: nat, chunk: nat, avail: nat, credit: nat): (n: nat)
    requires chunk > 0
    ensures n <= avail && n <= len && n <= 16 * chunk && n <= Max(credit, chunk)
    ensures n > 0 <==> len > 0 && avail > 0
    ensures n == len || n <= chunk || n % chunk == 0
    ensures n == len || n + chunk > avail || n + chunk > 16 * chunk || n + chunk > credit
    ensures n <= Admissible(len, chunk, avail, credit) < n + chunk
    ensures var most := Admissible(len, chunk, avail, credit); most == len || most <= chunk ==> n == most
  {
    var want := Min(Min(len, SEND_BATCH_MAX * chunk), avail);
    var granted := Max(Min(credit, want), Min(chunk, want));
    if granted < len && granted > chunk then
      WholeChunks(granted, chunk);
      granted - granted % chunk
    else granted
  }

  lemma WholeChunks(n: nat, chunk: nat)
    requires 0 < chunk <= n
    ensures 0 < n - n % chunk <= n && (n - n % chunk) % chunk == 0
  {
    RestIsUnique(n - n % chunk, chunk, n / chunk, 0);
    assert n / chunk == 0 ==> n < chunk;
  }

  lemma RestIsUnique(x: nat, c: nat, q: nat, r: nat)
    requires c > 0 && r < c && x == q * c + r
    ensures x % c == r && x / c == q
  {
    var d := q - x / c;
    assert d * c == x % c - r;
    assert d >= 1 ==> d * c >= c as int;
    assert d <= -1 ==> d * c <= -(c as int);
  }

  // ----- Re-assembly -----

  /** Move the chunk waiting at the delivered offset into the buffer. */
  function Pop(s: Inbound): Inbound
    requires s.offset in s.ooo
  {
    var chunk := s.ooo[s.offset];
    s.(ooo := s.ooo - {s.offset}, oooBytes := s.oooBytes - |chunk|,
       buf := s.buf + chunk, offset := s.offset + |chunk|)
  }

  /** Move whatever is now contiguous into the buffer: exact keys only. */
  function Release(s: Inbound): Inbound
    decreases |s.ooo|
  {
    if s.offset in s.ooo then Release(Pop(s)) else s
  }

  lemma ReleasePops(s: Inbound)
    ensures Release(s) == if s.offset in s.ooo then Release(Pop(s)) else s
  {
  }

  /** Hold bytes that arrived ahead of a gap. */
  function Hold(s: Inbound, at: nat, data: seq<byte>): (Inbound, nat) {
    if at in s.ooo then (s, 0)
    else if s.oooBytes + |data| > MAX_RECV_OOO then (s.(violation := true), 0)
    else (s.(ooo := s.ooo[at := data], oooBytes := s.oooBytes + |data|), |data|)
  }

  /** Put a chunk at its offset; also how many bytes were newly accepted. */
  function Place(s: Inbound, offset: nat, data: seq<byte>): (Inbound, nat) {
    var end := offset + |data|;
    if end <= s.offset then (s, 0)
    else if offset > s.offset then Hold(s, offset, data)
    else (Release(Append(s, offset, data)), end - s.offset)
  }

  /** A chunk that reaches past the delivered offset, less what was delivered. */
  function Append(s: Inbound, offset: nat, data: seq<byte>): Inbound
    requires offset <= s.offset < offset + |data|
  {
    s.(buf := s.buf + data[s.offset - offset..], offset := offset + |data|)
  }

  function Finish(s: Inbound): Inbound {
    if !s.finSeen || s.finReceived || s.offset < s.finalSize then s
    else s.(finReceived := true, phase := if s.phase.HalfClosedLocal? then Closed else HalfClosedRemote)
  }

  function ResetLocally(s: Inbound): Inbound {
    if s.phase.Closed? || s.phase.Reset? then s else s.(phase := Reset)
  }

  function DeliverData(s: Inbound, offset: nat, data: seq<byte>): Inbound {
    var (s1, accepted) := Place(s, offset, data);
    if s1.violation then ResetLocally(s1)
    else if accepted > 0 then Finish(s1.(fc := OnDataReceived(s1.fc, accepted)))
    else s1
  }

  function DeliverFin(s: Inbound, finalSize: nat): Inbound {
    Finish(s.(finSeen := true, finalSize := finalSize))
  }

  /** A STREAM frame on an existing stream. */
  function DeliverFrame(s: Inbound, f: StreamFrame): Inbound {
    var s1 := if f.data != [] then DeliverData(s, f.offset, f.data) else s;
    if f.isFin then DeliverFin(s1, f.End()) else s1
  }

  /** Why a write takes nothing. */
  datatype Refusal = StreamReset | WriteAfterClose

  datatype ReadResult = Bytes(data: seq<byte>) | Eof | WasReset | MustWait

  /** Read up to `max` bytes; the last component is the limit to advertise, if any. */
  function Read(s: Inbound, max: nat): (Inbound, ReadResult, Option<int>) {
    if s.buf == [] then
      (s, if s.phase.Reset? then WasReset
          else if s.finReceived || s.phase.Closed? then Eof else MustWait, None)
    else
      var n := Min(max, |s.buf|);
      var (fc, update) := OnDataConsumed(s.fc, n);
      var fc' := if update then AdvertiseLimit(fc) else fc;
      (s.(buf := s.buf[n..], fc := fc'), Bytes(s.buf[..n]),
       if update then Some(fc'.lastAdvertised) else None)
  }

  function Close(s: Inbound): Inbound {
    if s.phase.Closed? || s.phase.Reset? then s
    else s.(phase := if s.phase.HalfClosedRemote? then Closed else HalfClosedLocal)
  }

  /** A read gives the buffer's first bytes: all of them, or as many as were asked for. The
      limit is advertised again exactly when less than half a window is left of the last
      one. An empty buffer ends the stream, breaks it or makes the reader wait, and
      changes nothing. */
  lemma ReadExact(s: Inbound, max: nat)
    ensures var (s', r, limit) := Read(s, max);
            if s.buf == [] then
              && s' == s && limit.None?
              && (r.WasReset? <==> s.phase.Reset?)
              && (r.Eof? <==> !s.phase.Reset? && (s.finReceived || s.phase.Closed?))
              && (r.MustWait? <==> !s.phase.Reset? && !s.finReceived && !s.phase.Closed?)
            else
              && r.Bytes? && r.data + s'.buf == s.buf && |r.data| <= max && (r.data == [] ==> max == 0)
              && (s'.buf == [] || |r.data| == max)
              && s' == s.(buf := s'.buf, fc := s'.fc)
              && s'.fc.dataConsumed == s.fc.dataConsumed + |r.data|
              && (limit.Some? <==> s.fc.lastAdvertised - s'.fc.dataConsumed < s.fc.recvWindow / 2)
              && (limit.None? ==> s'.fc == s.fc.(dataConsumed := s'.fc.dataConsumed))
              && (limit.Some? ==> limit.value == s'.fc.lastAdvertised >= s'.fc.dataConsumed + s'.fc.recvWindow)
  {
  }

  /** The two halves close separately, in either order, and the stream with the second of
      them; a stream that is closed or reset stays so. */
  lemma HalvesClose(s: Inbound)
    requires FinExact(s)
    ensures var s' := Close(s);
            && s' == s.(phase := s'.phase)
            && (s.phase.Closed? || s.phase.Reset? ==> s' == s)
            && (s.phase.HalfClosedRemote? ==> s'.phase.Closed?)
            && (s.phase.Idle? || s.phase.Open? || s.phase.HalfClosedLocal? ==> s'.phase.HalfClosedLocal?)
    ensures var s' := Finish(s.(finSeen := true, finalSize := s.offset));
            && s'.finReceived
            && (!s.finReceived && s.phase.HalfClosedLocal? ==> s'.phase.Closed?)
            && (!s.finReceived && (s.phase.Idle? || s.phase.Open?) ==> s'.phase.HalfClosedRemote?)
            && (s.finReceived ==> s'.phase == s.phase)
  {
  }

  /** A chunk ahead of the delivered bytes is held, unless its place is taken or it would
      bring what is held over the cap, which alone trips the backstop and resets the
      stream. */
  lemma BackstopExactly(s: Inbound, offset: nat, data: seq<byte>)
    requires !s.violation && offset > s.offset && data != []
    ensures var s' := DeliverData(s, offset, data);
            && (s'.violation <==> offset !in s.ooo && s.oooBytes + |data| > 0x80_0000)
            && (s'.violation ==>
                  && s'.ooo == s.ooo && s'.fc == s.fc
                  && s'.phase == if s.phase.Closed? then Closed else Reset)
            && (!s'.violation ==>
                  s'.ooo == (if offset in s.ooo then s.ooo else s.ooo[offset := data]) && s'.offset == s.offset)
  {
  }

  // ----- Safety of the prefix, whatever the boundaries of the frames -----

  ghost predicate Within(w: seq<byte>, lo: nat, data: seq<byte>) {
    lo + |data| <= |w| && data == w[lo..lo + |data|]
  }

  /** Everything held is the peer's: what was read and the buffer are its first bytes,
      and what waits out of order is where it belongs. */
  ghost predicate Faithful(s: Inbound, read: seq<byte>, w: seq<byte>) {
    && s.offset <= |w| && read + s.buf == w[..s.offset]
    && forall k <- s.ooo :: Within(w, k, s.ooo[k])
  }

  lemma SliceOfSlice(w: seq<byte>, lo: nat, hi: nat, a: nat, b: nat)
    requires lo <= hi <= |w| && a <= b <= hi - lo
    ensures w[lo..hi][a..b] == w[lo + a..lo + b]
  {
    var x, y := w[lo..hi][a..b], w[lo + a..lo + b];
    forall i | 0 <= i < |x| ensures x[i] == y[i] {
      assert x[i] == w[lo..hi][a + i] == w[lo + (a + i)] == y[i];
    }
  }

  /** A slice of a frame is the stream's too. */
  lemma SliceWithin(w: seq<byte>, lo: nat, data: seq<byte>, size: nat, g: StreamFrame)
    requires Within(w, lo, data) && Slice(g, lo, data, size)
    ensures Within(w, g.offset, g.data)
  {
    SliceOfSlice(w, lo, lo + |data|, g.offset - lo, g.End() - lo);
  }

  /** The peer writing more takes nothing back. */
  lemma FaithfulMore(s: Inbound, read: seq<byte>, w: seq<byte>, w': seq<byte>)
    requires Faithful(s, read, w) && w <= w'
    ensures Faithful(s, read, w')
  {
    assert w'[..s.offset] == w[..s.offset];
    forall k | k in s.ooo ensures Within(w', k, s.ooo[k]) {
      assert w'[k..k + |s.ooo[k]|] == w[k..k + |s.ooo[k]|];
    }
  }

  lemma {:induction false} ReleaseFaithful(s: Inbound, read: seq<byte>, w: seq<byte>)
    requires Faithful(s, read, w)
    ensures Faithful(Release(s), read, w)
    decreases |s.ooo|
  {
    if s.offset in s.ooo {
      LongerPrefix(read, s.buf, w, s.offset, s.offset + |s.ooo[s.offset]|);
      ReleaseFaithful(Pop(s), read, w);
    }
  }

  /** A frame moves bytes only by placing them. */
  lemma DeliverPlaces(s: Inbound, f: StreamFrame)
    ensures var s', p := DeliverFrame(s, f), if f.data == [] then s else Place(s, f.offset, f.data).0;
            && s'.buf == p.buf && s'.ooo == p.ooo && s'.offset == p.offset
            && s'.oooBytes == p.oooBytes && s'.violation == p.violation
  {
    hide Place;
  }

  lemma AppendFaithful(s: Inbound, f: StreamFrame, read: seq<byte>, w: seq<byte>)
    requires Faithful(s, read, w) && Within(w, f.offset, f.data) && f.offset <= s.offset < f.End()
    ensures Faithful(Append(s, f.offset, f.data), read, w)
  {
    var s1, tail := Append(s, f.offset, f.data), f.data[s.offset - f.offset..];
    SliceOfSlice(w, f.offset, f.End(), s.offset - f.offset, |f.data|);
    assert tail == f.data[s.offset - f.offset..|f.data|];
    LongerPrefix(read, s.buf, w, s.offset, f.End());
  }

  /** The next bytes of the stream lengthen the prefix. */
  lemma LongerPrefix(read: seq<byte>, buf: seq<byte>, w: seq<byte>, a: nat, b: nat)
    requires a <= b <= |w| && read + buf == w[..a]
    ensures read + (buf + w[a..b]) == w[..b]
  {
    assert read + (buf + w[a..b]) == read + buf + w[a..b];
    assert w[..a] + w[a..b] == w[..b];
  }

  /** No duplicate, gap or transposition: delivering any frame of the peer's stream, in
      any order and cut anywhere, keeps the delivered bytes a prefix of the stream. */
  lemma DeliverFaithful(s: Inbound, f: StreamFrame, read: seq<byte>, w: seq<byte>)
    requires Faithful(s, read, w) && Within(w, f.offset, f.data)
    ensures Faithful(DeliverFrame(s, f), read, w)
  {
    DeliverPlaces(s, f);
    hide DeliverFrame, Release;
    if f.offset <= s.offset < f.End() {
      AppendFaithful(s, f, read, w);
      ReleaseFaithful(Append(s, f.offset, f.data), read, w);
      hide Append;
    }
  }

  lemma ReadFaithful(s: Inbound, max: nat, read: seq<byte>, w: seq<byte>)
    requires Faithful(s, read, w)
    ensures var (s', r, _) := Read(s, max);
            Faithful(s', if r.Bytes? then read + r.data else read, w)
  {
    var (s', r, _) := Read(s, max);
    if r.Bytes? {
      assert read + r.data + s'.buf == read + (r.data + s'.buf);
      assert r.data + s'.buf == s.buf;
    }
  }

  // ----- Accounting -----

  ghost function Total(m: map<nat, seq<byte>>): nat
    decreases |m|
  {
    if m == map[] then 0
    else
      var k :| k in m;
      |m[k]| + Total(m - {k})
  }

  lemma NoneHeld()
    ensures Total(map[]) == 0
  {
  }

  lemma {:induction false} TotalWithout(m: map<nat, seq<byte>>, k: nat)
    requires k in m
    ensures Total(m) == |m[k]| + Total(m - {k})
    decreases |m|
  {
    var j :| j in m && Total(m) == |m[j]| + Total(m - {j});
    if j != k {
      TotalWithout(m - {j}, k);
      TotalWithout(m - {k}, j);
      assert m - {j} - {k} == m - {k} - {j};
    }
  }

  lemma TotalWith(m: map<nat, seq<byte>>, k: nat, data: seq<byte>)
    requires k !in m
    ensures Total(m[k := data]) == Total(m) + |data|
  {
    TotalWithout(m[k := data], k);
    assert m[k := data] - {k} == m;
  }

  /** The counters say what is held. */
  ghost predicate Accounted(s: Inbound) {
    && s.oooBytes == Total(s.ooo) <= MAX_RECV_OOO
    && s.fc.dataRecvd == s.offset + s.oooBytes
    && s.offset == s.fc.dataConsumed + |s.buf|
  }

  lemma NewAccounted(phase: Phase)
    ensures Accounted(NewInbound(phase))
  {
    NoneHeld();
    hide Total;
  }

  lemma {:induction false} ReleaseAccounts(s: Inbound)
    requires s.oooBytes == Total(s.ooo) <= MAX_RECV_OOO
    ensures var r := Release(s);
            && r.oooBytes == Total(r.ooo) <= MAX_RECV_OOO
            && r.offset + r.oooBytes == s.offset + s.oooBytes
            && r.offset - |r.buf| == s.offset - |s.buf|
    decreases |s.ooo|
  {
    hide Total;
    if s.offset in s.ooo {
      TotalWithout(s.ooo, s.offset);
      ReleaseAccounts(Pop(s));
    }
  }

  lemma {:induction false} ReleaseGrows(s: Inbound)
    ensures var r := Release(s);
            && r.offset >= s.offset
            && r == s.(ooo := r.ooo, oooBytes := r.oooBytes, buf := r.buf, offset := r.offset)
    decreases |s.ooo|
  {
    if s.offset in s.ooo { ReleaseGrows(Pop(s)); }
  }

  /** A stream that hit the backstop stays so. */
  lemma StaysViolated(s: Inbound, f: StreamFrame)
    ensures s.violation ==> DeliverFrame(s, f).violation
  {
    if f.offset <= s.offset < f.End() { ReleaseGrows(Append(s, f.offset, f.data)); }
    hide Release;
  }

  /** What a frame does to the flow-control counters. */
  lemma DeliverBooks(s: Inbound, f: StreamFrame)
    ensures var s' := DeliverFrame(s, f);
            !s'.violation ==>
              s'.fc == OnDataReceived(s.fc, if f.data == [] then 0 else Place(s, f.offset, f.data).1)
  {
    if f.offset <= s.offset < f.End() { ReleaseGrows(Append(s, f.offset, f.data)); }
    hide Release;
  }

  /** For any frame whatever: the held bytes are counted exactly and stay within the
      cap, until the backstop is hit. */
  lemma DeliverAccounts(s: Inbound, f: StreamFrame)
    requires Accounted(s) && !DeliverFrame(s, f).violation
    ensures Accounted(DeliverFrame(s, f))
  {
    DeliverPlaces(s, f);
    DeliverBooks(s, f);
    hide DeliverFrame, Total, Release;
    if f.data != [] && f.End() > s.offset {
      if f.offset > s.offset {
        if f.offset !in s.ooo { TotalWith(s.ooo, f.offset, f.data); }
      } else {
        ReleaseAccounts(Append(s, f.offset, f.data));
      }
    }
  }

  lemma ReadAccounts(s: Inbound, max: nat)
    requires Accounted(s)
    ensures Accounted(Read(s, max).0)
  {
  }

  // ----- The end of the stream -----

  /** The stream counts as finished exactly when the FIN was seen and every byte below
      the final size delivered; the closed phases are reached no other way. */
  ghost predicate FinExact(s: Inbound) {
    && (s.finReceived <==> s.finSeen && s.offset >= s.finalSize)
    && (s.phase.HalfClosedRemote? || s.phase.Closed? ==> s.finReceived)
  }

  /** Whatever the order of data and FIN, EOF is never early, until the backstop is
      hit: every FIN states the same final size. */
  lemma DeliverFinExact(s: Inbound, f: StreamFrame)
    requires FinExact(s) && (f.isFin && s.finSeen ==> f.End() == s.finalSize)
    requires !DeliverFrame(s, f).violation
    ensures FinExact(DeliverFrame(s, f))
    ensures DeliverFrame(s, f).phase.Reset? ==> s.phase.Reset?
  {
    if f.offset <= s.offset < f.End() {
      ReleaseGrows(Append(s, f.offset, f.data));
    }
    hide Release;
  }

  // ----- What is held stays held -----

  predicate Laminar(a: nat, b: nat, c: nat, d: nat) {
    a < d && c < b ==> (c <= a && b <= d) || (a <= c && d <= b)
  }

  /** Byte `b` of the stream was delivered, or waits out of order. */
  ghost predicate Holds(s: Inbound, b: nat) {
    b < s.offset || exists k :: k in s.ooo && k <= b < k + |s.ooo[k]|
  }

  /** No held chunk straddles another or the frame `lo..hi`. */
  ghost predicate Tidy(s: Inbound) {
    && (forall k <- s.ooo :: |s.ooo[k]| > 0)
    && (forall j, k {:trigger Apart(s.ooo, j, k)} :: j in s.ooo && k in s.ooo ==> Apart(s.ooo, j, k))
  }

  ghost predicate Apart(m: map<nat, seq<byte>>, j: nat, k: nat)
    requires j in m && k in m
  {
    Laminar(j, j + |m[j]|, k, k + |m[k]|)
  }

  ghost predicate Fits(s: Inbound, lo: nat, hi: nat) {
    forall k <- s.ooo :: Laminar(k, k + |s.ooo[k]|, lo, hi)
  }

  /** No held chunk covers the first missing byte. */
  ghost predicate Drained(s: Inbound) {
    forall k <- s.ooo :: k > s.offset || k + |s.ooo[k]| <= s.offset
  }

  lemma {:induction false} ReleaseDrains(s: Inbound)
    requires Tidy(s)
    requires forall k <- s.ooo :: k >= s.offset || k + |s.ooo[k]| <= s.offset
    ensures var r := Release(s);
            && Tidy(r) && Drained(r) && (forall k <- r.ooo :: k in s.ooo && r.ooo[k] == s.ooo[k])
            && (forall b :: Holds(s, b) ==> Holds(r, b))
    decreases |s.ooo|
  {
    if s.offset in s.ooo {
      var s1 := Pop(s);
      PopKeeps(s);
      ReleaseDrains(s1);
    }
  }

  lemma PopKeeps(s: Inbound)
    requires Tidy(s) && s.offset in s.ooo
    requires forall k <- s.ooo :: k >= s.offset || k + |s.ooo[k]| <= s.offset
    ensures var r := Pop(s);
            && Tidy(r) && (forall k <- r.ooo :: k >= r.offset || k + |r.ooo[k]| <= r.offset)
            && (forall b :: Holds(s, b) ==> Holds(r, b))
  {
    var r := Pop(s);
    forall k | k in r.ooo ensures k >= r.offset || k + |r.ooo[k]| <= r.offset {
      assert Apart(s.ooo, k, s.offset);
    }
    forall j, k | j in r.ooo && k in r.ooo ensures Apart(r.ooo, j, k) {
      assert Apart(s.ooo, j, k);
    }
    HoldsMore(s, r);
  }

  /** Delivering further, and dropping only chunks that were delivered, loses nothing. */
  lemma HoldsMore(s: Inbound, r: Inbound)
    requires s.offset <= r.offset
    requires forall k <- s.ooo :: (k in r.ooo && r.ooo[k] == s.ooo[k]) || k + |s.ooo[k]| <= r.offset
    ensures forall b :: Holds(s, b) ==> Holds(r, b)
  {
    forall b: nat | Holds(s, b) ensures Holds(r, b) {
      if b >= r.offset {
        var k :| k in s.ooo && k <= b < k + |s.ooo[k]|;
        assert k in r.ooo;
      }
    }
  }

  /** What a frame of a tidy stream may change. */
  ghost predicate KeptBy(s: Inbound, offset: nat, data: seq<byte>, s': Inbound) {
    && Tidy(s') && Drained(s')
    && (forall k <- s'.ooo :: (k in s.ooo && s'.ooo[k] == s.ooo[k]) || (k == offset && s'.ooo[k] == data))
    && (forall b :: Holds(s, b) ==> Holds(s', b))
  }

  lemma HoldKeeps(s: Inbound, offset: nat, data: seq<byte>)
    requires Tidy(s) && Drained(s) && data != [] && Fits(s, offset, offset + |data|) && offset > s.offset
    ensures KeptBy(s, offset, data, Hold(s, offset, data).0)
  {
    var s' := Hold(s, offset, data).0;
    assert s'.offset == s.offset && (s'.ooo == s.ooo || (offset !in s.ooo && s'.ooo == s.ooo[offset := data]));
    hide Hold, Tidy, Holds, Fits;
    HoldsMore(s, s');
    TidyWith(s, s', offset, data);
  }

  lemma TidyWith(s: Inbound, s': Inbound, offset: nat, data: seq<byte>)
    requires Tidy(s) && data != [] && Fits(s, offset, offset + |data|)
    requires s'.ooo == s.ooo || s'.ooo == s.ooo[offset := data]
    ensures Tidy(s')
  {
    forall j, k | j in s'.ooo && k in s'.ooo ensures Apart(s'.ooo, j, k) {
      if j in s.ooo && k in s.ooo { assert Apart(s.ooo, j, k); }
    }
  }

  lemma AppendKeeps(s: Inbound, offset: nat, data: seq<byte>)
    requires Tidy(s) && Drained(s) && Fits(s, offset, offset + |data|)
    requires offset <= s.offset < offset + |data|
    ensures KeptBy(s, offset, data, Release(Append(s, offset, data)))
  {
    var s1 := Append(s, offset, data);
    forall k | k in s1.ooo ensures k >= s1.offset || k + |s1.ooo[k]| <= s1.offset {
      assert Laminar(k, k + |s.ooo[k]|, offset, offset + |data|);
    }
    HoldsMore(s, s1);
    ReleaseDrains(s1);
    hide Release;
  }

  /** A frame that straddles nothing never costs a byte that was held, and leaves the
      stream drained again. */
  lemma PlaceKeeps(s: Inbound, offset: nat, data: seq<byte>)
    requires Tidy(s) && Drained(s) && data != [] && Fits(s, offset, offset + |data|)
    ensures KeptBy(s, offset, data, Place(s, offset, data).0)
  {
    if offset > s.offset {
      HoldKeeps(s, offset, data);
    } else if offset + |data| > s.offset {
      AppendKeeps(s, offset, data);
    }
    hide Hold, Release, KeptBy;
    assert offset + |data| <= s.offset ==> KeptBy(s, offset, data, s) by { HoldsMore(s, s); }
  }

  /** After a frame is placed all its bytes are held, unless its slot was taken by a
      shorter one or the backstop was hit. */
  lemma PlaceDelivers(s: Inbound, offset: nat, data: seq<byte>)
    requires offset in s.ooo && offset > s.offset ==> |s.ooo[offset]| >= |data|
    requires !Place(s, offset, data).0.violation
    ensures forall b :: offset <= b < offset + |data| ==> Holds(Place(s, offset, data).0, b)
  {
    var s' := Place(s, offset, data).0;
    if offset > s.offset {
      assert offset + |data| > s.offset && data != [] ==> offset in s'.ooo;
      forall b | offset <= b < offset + |data| ensures Holds(s', b) {
        assert offset in s'.ooo && offset <= b < offset + |s'.ooo[offset]|;
      }
    } else if offset + |data| > s.offset {
      ReleaseGrows(Append(s, offset, data));
    }
  }

  // ----- The stream itself -----

  /** The next chunk, and the frames it joins. */
  lemma ChunkOff(all: seq<StreamFrame>, done: seq<StreamFrame>, at: nat, rest: seq<byte>, size: nat, syn: bool,
                 isFin: bool)
    requires size > 0 && rest != [] && all == done + Chunks(at, rest, size, syn, isFin)
    ensures var k := Min(size, |rest|);
            all == done + [StreamFrame(isFin && k == |rest|, syn, at, rest[..k])]
                     + Chunks(at + k, rest[k..], size, false, isFin)
  {
    var k := Min(size, |rest|);
    var f, more := StreamFrame(isFin && k == |rest|, syn, at, rest[..k]), Chunks(at + k, rest[k..], size, false, isFin);
    assert done + ([f] + more) == done + [f] + more;
  }

  lemma NoMoreChunks(at: nat, size: nat, syn: bool, isFin: bool)
    requires size > 0
    ensures Chunks(at, [], size, syn, isFin) == []
  {
  }

  /** Cut data into consecutive frames, as a write does and as re-chunking does. */
  method Cut(offset: nat, data: seq<byte>, size: nat, isSyn: bool, isFin: bool) returns (frames: seq<StreamFrame>)
    requires size > 0
    ensures frames == Chunks(offset, data, size, isSyn, isFin)
  {
    hide Chunks;
    frames := [];
    ghost var all := Chunks(offset, data, size, isSyn, isFin);
    var rest, at: nat, syn := data, offset, isSyn;
    assert all == frames + all;
    while |rest| > 0
      invariant all == frames + Chunks(at, rest, size, syn, isFin)
      decreases |rest|
    {
      var k := size;
      if k > |rest| { k := |rest|; }
      ChunkOff(all, frames, at, rest, size, syn, isFin);
      frames := frames + [StreamFrame(isFin && k == |rest|, syn, at, rest[..k])];
      syn, at, rest := false, at + k, rest[k..];
    }
    NoMoreChunks(at, size, syn, isFin);
    assert frames + [] == frames;
  }

  /** How much one pass hands over: the data, a batch of chunks, the peer's limit and the
      congestion window, whichever is least, in whole chunks short of the end. */
  method BatchSize(len: nat, chunk: nat, avail: nat, credit: nat) returns (n: nat)
    requires chunk > 0
    ensures n == Batch(len, chunk, avail, credit)
    ensures n <= Max(credit, chunk)
    ensures n == len || n + chunk > avail || n + chunk > 16 * chunk || n + chunk > credit
  {
    var want := len;
    if want > SEND_BATCH_MAX * chunk { want := SEND_BATCH_MAX * chunk; }
    if avail < want { want := avail; }
    if want == 0 { return 0; }
    var first := chunk;
    if first > want { first := want; }
    n := credit;
    if n > want { n := want; }
    if n < first { n := first; }
    if n < len && n > chunk {
      WholeChunks(n, chunk);
      n := n - n % chunk;
    }
  }

  class Stream {
    var recvBuf: seq<byte>
    var recvOOO: map<nat, seq<byte>>
    var recvOffset: nat
    var oooBytes: int
    var flowControlViolation: bool
    var finSeen: bool
    var finReceived: bool
    var finalSize: nat
    var state: Phase
    var bytesWritten: nat
    const streamFC: StreamFlowController

    /** The receive side, as a value; `fc` stands in for the flow controller's state. */
    function Snapshot(fc: Limits): Inbound
      reads this
    {
      Inbound(recvBuf, recvOOO, recvOffset, oooBytes, flowControlViolation, finSeen, finReceived, finalSize, state, fc)
    }

    ghost function Model(): Inbound
      reads this, streamFC
    {
      Snapshot(streamFC.Model())
    }

    constructor (phase: Phase)
      ensures Model() == NewInbound(phase) && bytesWritten == 0 && fresh(streamFC)
    {
      recvBuf, recvOOO, recvOffset, oooBytes := [], map[], 0, 0;
      flowControlViolation, finSeen, finReceived, finalSize := false, false, false, 0;
      state, bytesWritten := phase, 0;
      streamFC := new StreamFlowController(INITIAL_WINDOW, INITIAL_WINDOW);
    }

    /** Move whatever is now contiguous into the receive buffer. */
    method ReleaseContiguous()
      modifies this
      ensures Model() == Release(old(Model())) && bytesWritten == old(bytesWritten)
    {
      hide Release;
      while recvOffset in recvOOO
        invariant Release(Model()) == Release(old(Model())) && bytesWritten == old(bytesWritten)
        decreases |recvOOO|
      {
        ReleasePops(Model());
        ghost var popped := Pop(Model());
        var chunk := recvOOO[recvOffset];
        recvOOO := recvOOO - {recvOffset};
        oooBytes := oooBytes - |chunk|;
        recvBuf := recvBuf + chunk;
        recvOffset := recvOffset + |chunk|;
        assert Model() == popped;
      }
      ReleasePops(Model());
    }

    method PlaceLocked(offset: nat, data: seq<byte>) returns (accepted: nat)
      modifies this
      ensures (Model(), accepted) == Place(old(Model()), offset, data) && bytesWritten == old(bytesWritten)
    {
      var end := offset + |data|;
      if end <= recvOffset { return 0; }
      var at, tail := offset, data;
      if offset < recvOffset {
        tail := data[recvOffset - offset..];
        at := recvOffset;
      }
      if at > recvOffset {
        if at in recvOOO { return 0; }
        if oooBytes + |tail| > MAX_RECV_OOO {
          flowControlViolation := true;
          return 0;
        }
        recvOOO := recvOOO[at := tail];
        oooBytes := oooBytes + |tail|;
        return |tail|;
      }
      accepted := |tail|;
      ghost var appended := Append(Model(), offset, data);
      recvBuf := recvBuf + tail;
      recvOffset := end;
      assert Model() == appended;
      ReleaseContiguous();
    }

    method FinishLocked()
      modifies this
      ensures Model() == Finish(old(Model())) && bytesWritten == old(bytesWritten)
    {
      if !finSeen || finReceived || recvOffset < finalSize { return; }
      finReceived := true;
      if state.HalfClosedLocal? { state := Closed; } else { state := HalfClosedRemote; }
    }

    method Deliver(offset: nat, data: seq<byte>)
      modifies this, streamFC
      ensures Model() == DeliverData(old(Model()), offset, data) && bytesWritten == old(bytesWritten)
    {
      var accepted := PlaceLocked(offset, data);
      if flowControlViolation {
        if !state.Closed? && !state.Reset? { state := Reset; }
        return;
      }
      if accepted > 0 {
        streamFC.BookReceived(accepted);
        FinishLocked();
      }
    }

    method DeliverEnd(size: nat)
      modifies this
      ensures Model() == DeliverFin(old(Model()), size) && bytesWritten == old(bytesWritten)
    {
      finSeen := true;
      finalSize := size;
      FinishLocked();
    }

    /** A STREAM frame for this stream. */
    method HandleFrame(f: StreamFrame)
      modifies this, streamFC
      ensures Model() == DeliverFrame(old(Model()), f) && bytesWritten == old(bytesWritten)
    {
      if |f.data| > 0 { Deliver(f.offset, f.data); }
      if f.isFin { DeliverEnd(f.offset + |f.data|); }
    }

    /** Read without waiting: what a Read that would block returns is `MustWait`. */
    method ReadNow(max: nat) returns (r: ReadResult, limit: Option<int>)
      modifies this, streamFC
      ensures (Model(), r, limit) == Read(old(Model()), max) && bytesWritten == old(bytesWritten)
    {
      limit := None;
      if |recvBuf| == 0 {
        if state.Reset? { return WasReset, None; }
        if finReceived || state.Closed? { return Eof, None; }
        return MustWait, None;
      }
      var n := if max < |recvBuf| then max else |recvBuf|;
      r := Bytes(recvBuf[..n]);
      recvBuf := recvBuf[n..];
      var update := streamFC.BookConsumed(n);
      if update {
        var l := streamFC.Advertise();
        limit := Some(l);
      }
    }

    /** Close the write side; the FIN to send, if any, carries the stream's final size. */
    method CloseWrite() returns (fin: Option<StreamFrame>)
      modifies this
      ensures Model() == Close(old(Model())) && bytesWritten == old(bytesWritten)
      ensures fin == if old(state).Closed? || old(state).Reset? then None
                     else Some(StreamFrame(true, false, bytesWritten, []))
    {
      if state.Closed? || state.Reset? { return None; }
      if state.HalfClosedRemote? { state := Closed; } else { state := HalfClosedLocal; }
      fin := Some(StreamFrame(true, false, bytesWritten, []));
    }

    /** One pass of a write: `credit` is what the congestion window admits. */
    method WritePass(data: seq<byte>, chunk: nat, credit: nat) returns (frames: seq<StreamFrame>, n: nat)
      requires chunk > 0
      modifies this, streamFC
      ensures n == Batch(|data|, chunk, SendWindowAvailable(old(streamFC.Model())), credit)
      ensures n > 0 ==> frames == Chunks(old(bytesWritten), data[..n], chunk, old(state).Idle?, false)
      ensures n == 0 ==> frames == []
      ensures bytesWritten == old(bytesWritten) + n
      ensures streamFC.Model() == if n == 0 then old(streamFC.Model()) else OnDataSent(old(streamFC.Model()), n)
      ensures state == if n > 0 && old(state).Idle? then Open else old(state)
      ensures Snapshot(old(streamFC.Model())) == old(Model()).(phase := state)
    {
      var avail := streamFC.Available();
      n := BatchSize(|data|, chunk, avail, credit);
      hide Batch, Chunks;
      if n == 0 { return [], 0; }
      var isSyn := state.Idle?;
      if isSyn { state := Open; }
      streamFC.BookSent(n);
      frames := Cut(bytesWritten, data[..n], chunk, isSyn, false);
      bytesWritten := bytesWritten + n;
    }

    /** A write, pass by pass, until the data or the peer's credit runs out or the write
        is abandoned: what goes out is cut from a prefix of the data, in order and
        without a gap, and never passes the peer's limit. A stream that was reset or closed
        for writing refuses, and nothing changes. */
    method WriteAll(data: seq<byte>, chunk: nat, credits: seq<nat>)
      returns (frames: seq<StreamFrame>, total: nat, refused: Option<Refusal>)
      requires chunk > 0 && streamFC.dataSent <= streamFC.maxStreamData
      modifies this, streamFC
      ensures refused == if old(state).Reset? then Some(StreamReset)
                         else if old(state).HalfClosedLocal? || old(state).Closed? then Some(WriteAfterClose) else None
      ensures refused.Some? ==> total == 0 && Model() == old(Model()) && streamFC.Model() == old(streamFC.Model())
      ensures total <= |data| && bytesWritten == old(bytesWritten) + total
      ensures Chain(frames, old(bytesWritten), bytesWritten)
      ensures forall f <- frames :: Slice(f, old(bytesWritten), data, chunk) && !f.isFin
      ensures forall i :: 0 <= i < |frames| ==> (frames[i].isSyn <==> old(state).Idle? && i == 0)
      ensures streamFC.dataSent == old(streamFC.dataSent) + total <= streamFC.maxStreamData
      ensures streamFC.maxStreamData == old(streamFC.maxStreamData)
      ensures refused.None? && |credits| > |data| && total < |data| ==> streamFC.dataSent == streamFC.maxStreamData
    {
      if state.Reset? { return [], 0, Some(StreamReset); }
      if state.HalfClosedLocal? || state.Closed? { return [], 0, Some(WriteAfterClose); }
      frames, total, refused := [], 0, None;
      var i := 0;
      while i < |credits| && total < |data| && streamFC.dataSent < streamFC.maxStreamData
        invariant i <= |credits| && i <= total <= |data| && bytesWritten == old(bytesWritten) + total
        invariant Chain(frames, old(bytesWritten), bytesWritten)
        invariant forall f <- frames :: Slice(f, old(bytesWritten), data, chunk) && !f.isFin
        invariant forall j :: 0 <= j < |frames| ==> (frames[j].isSyn <==> old(state).Idle? && j == 0)
        invariant state.Idle? <==> old(state).Idle? && total == 0
        invariant frames == [] <==> total == 0
        invariant streamFC.dataSent == old(streamFC.dataSent) + total <= streamFC.maxStreamData
        invariant streamFC.maxStreamData == old(streamFC.maxStreamData)
      {
        ghost var start, syn := bytesWritten, state.Idle?;
        var fs, n := WritePass(data[total..], chunk, credits[i]);
        MoreFrames(frames, fs, old(bytesWritten), start, data, total, n, chunk, syn);
        frames, total := frames + fs, total + n;
        i := i + 1;
      }
    }
  }

  /** A pass continues the passes before it. */
  lemma MoreFrames(frames: seq<StreamFrame>, fs: seq<StreamFrame>, base: nat, start: nat, data: seq<byte>,
                   total: nat, n: nat, chunk: nat, isSyn: bool)
    requires chunk > 0 && total + n <= |data| && start == base + total && n > 0
    requires fs == Chunks(start, data[total..][..n], chunk, isSyn, false)
    requires Chain(frames, base, start) && forall f <- frames :: Slice(f, base, data, chunk) && !f.isFin
    ensures fs != [] && Chain(frames + fs, base, start + n)
    ensures forall f <- frames + fs :: Slice(f, base, data, chunk) && !f.isFin
    ensures forall j :: 0 <= j < |fs| ==> (fs[j].isSyn <==> isSyn && j == 0)
  {
    var part := data[total..][..n];
    ChunksCut(start, part, chunk, isSyn, false);
    hide Chunks;
    assert Chain(frames + fs, base, start + n) by { hide Slice, Flagged; }
    forall f | f in fs ensures Slice(f, base, data, chunk) && !f.isFin {
      SliceOfPart(f, start, base, data, total, n, chunk);
      var j :| 0 <= j < |fs| && fs[j] == f;
    }
    hide Slice, Chain;
  }

  lemma SliceOfPart(f: StreamFrame, start: nat, base: nat, data: seq<byte>, total: nat, n: nat, chunk: nat)
    requires total + n <= |data| && start == base + total && Slice(f, start, data[total..][..n], chunk)
    ensures Slice(f, base, data, chunk)
  {
    assert data[total..][..n] == data[total..total + n];
    SliceOfSlice(data, total, total + n, f.offset - start, f.End() - start);
  }
}
