/** Stream flow control: absolute limits (section 4.1 of RFC 9000), sent modulo 2^32
    and rebuilt by serial arithmetic (RFC 1982). */
module FlowControl {
  import opened Frames

  const INITIAL_WINDOW: nat := 65536
  const MAX_WINDOW: nat := 0x40_0000
  const HALF: int := 0x8000_0000

  datatype Limits = Limits(
    maxStreamData: int, dataSent: int, blocked: bool,
    dataRecvd: int, dataConsumed: int, recvWindow: int, lastAdvertised: int)

  function Start(initialMax: int, recvWindow: int): Limits {
    Limits(initialMax, 0, false, 0, 0, recvWindow, recvWindow)
  }

  // ----- Sending -----

  predicate CanSend(l: Limits, n: nat) { l.dataSent + n <= l.maxStreamData }

  function SendWindowAvailable(l: Limits): nat { Max(l.maxStreamData - l.dataSent, 0) }

  /** Blocked once the limit is used up. */
  function Rechecked(l: Limits): Limits { l.(blocked := l.dataSent >= l.maxStreamData) }

  function OnDataSent(l: Limits, n: nat): Limits { Rechecked(l.(dataSent := l.dataSent + n)) }

  function Distance(a: int, b: int): nat { if a < b then b - a else a - b }

  function Nearer(best: int, cand: int, reference: int): int {
    if Distance(cand, reference) < Distance(best, reference) then cand else best
  }

  /** The full offset nearest the reference that reads `wire` modulo 2^32. */
  function Reconstruct(wire: nat, reference: int): int {
    var best := reference - reference % TWO_32 + wire;
    Nearer(Nearer(best, best - TWO_32, reference), best + TWO_32, reference)
  }

  function UpdateMaxStreamData(l: Limits, max: int): Limits {
    if max <= l.maxStreamData then l else Rechecked(l.(maxStreamData := max))
  }

  function ApplyWindowUpdate(l: Limits, wire: nat): Limits {
    UpdateMaxStreamData(l, Reconstruct(wire, l.maxStreamData))
  }

  /** The offset survives the 32-bit field exactly when it is less than 2^31 away from
      the limit already held (at 2^31 it depends on which half the limit is in). */
  lemma ReconstructExact(offset: int, reference: int)
    ensures Reconstruct(offset % TWO_32, reference) == offset <==>
              || -HALF < offset - reference < HALF
              || (offset - reference == HALF && reference % TWO_32 < HALF)
              || (offset - reference == -HALF && reference % TWO_32 >= HALF)
  {
    var r, w := reference % TWO_32, offset % TWO_32;
    var k := (offset - w) / TWO_32 - (reference - r) / TWO_32;
    assert offset - reference == w - r + k * TWO_32;
  }

  // ----- Receiving -----

  function OnDataReceived(l: Limits, n: nat): Limits { l.(dataRecvd := l.dataRecvd + n) }

  /** Consumption, and whether the peer's remaining credit fell below half a window. */
  function OnDataConsumed(l: Limits, n: nat): (Limits, bool) {
    var l' := l.(dataConsumed := l.dataConsumed + n);
    (l', l'.lastAdvertised - l'.dataConsumed < l'.recvWindow / 2)
  }

  function Advertised(l: Limits): Limits {
    l.(lastAdvertised := Max(l.lastAdvertised, l.dataConsumed + l.recvWindow))
  }

  /** Double the window up to the cap, and advertise. */
  function AdvertiseLimit(l: Limits): Limits {
    Advertised(if l.recvWindow < MAX_WINDOW then l.(recvWindow := Min(2 * l.recvWindow, MAX_WINDOW)) else l)
  }

  /** The answer to STREAM_DATA_BLOCKED: advertise without growing. */
  function RefreshLimit(l: Limits): Limits { Advertised(l) }

  /** Advertising to a reader doubles the window up to the cap and offers it beyond what
      was consumed; answering a blocked sender offers the same window again. Neither takes
      an offer back or touches anything else. */
  lemma AdvertiseDoubles(l: Limits)
    ensures var l' := AdvertiseLimit(l);
            && (l.recvWindow <= MAX_WINDOW / 2 ==> l'.recvWindow == 2 * l.recvWindow)
            && (MAX_WINDOW / 2 <= l.recvWindow <= MAX_WINDOW ==> l'.recvWindow == MAX_WINDOW)
            && (l.recvWindow > MAX_WINDOW ==> l'.recvWindow == l.recvWindow)
            && l'.lastAdvertised >= l.lastAdvertised && l'.lastAdvertised >= l.dataConsumed + l'.recvWindow
            && (l'.lastAdvertised == l.lastAdvertised || l'.lastAdvertised == l.dataConsumed + l'.recvWindow)
            && l' == l.(recvWindow := l'.recvWindow, lastAdvertised := l'.lastAdvertised)
            && RefreshLimit(l) == l.(lastAdvertised := Max(l.lastAdvertised, l.dataConsumed + l.recvWindow))
  {
  }

  /** Reads of the given sizes, each followed by an update. */
  function Updated(l: Limits, sizes: seq<nat>): Limits {
    if sizes == [] then l
    else AdvertiseLimit(OnDataConsumed(Updated(l, sizes[..|sizes| - 1]), sizes[|sizes| - 1]).0)
  }

  function Doubled(n: nat, times: nat): nat {
    if times == 0 then n else 2 * Doubled(n, times - 1)
  }

  /** The window after any number of updates is the initial one doubled that often, up to
      the cap: six updates reach it. */
  lemma {:induction false} WindowAfterUpdates(l: Limits, sizes: seq<nat>)
    requires l.recvWindow == INITIAL_WINDOW
    ensures Updated(l, sizes).recvWindow == Min(Doubled(INITIAL_WINDOW, |sizes|), MAX_WINDOW)
    ensures |sizes| >= 6 ==> Updated(l, sizes).recvWindow == MAX_WINDOW
  {
    if sizes != [] { WindowAfterUpdates(l, sizes[..|sizes| - 1]); }
    DoubledGrows(|sizes|);
  }

  lemma {:induction false} DoubledGrows(times: nat)
    ensures Doubled(INITIAL_WINDOW, times) >= INITIAL_WINDOW
    ensures times >= 6 ==> Doubled(INITIAL_WINDOW, times) >= MAX_WINDOW
  {
    if times <= 6 {
      assert Doubled(INITIAL_WINDOW, 2) == 4 * INITIAL_WINDOW;
      assert Doubled(INITIAL_WINDOW, 4) == 16 * INITIAL_WINDOW;
      assert Doubled(INITIAL_WINDOW, 6) == 64 * INITIAL_WINDOW;
    }
    if times > 0 { DoubledGrows(times - 1); }
  }

  function BufferedBytes(l: Limits): int { l.dataRecvd - l.dataConsumed }

  class StreamFlowController {
    var maxStreamData: int
    var dataSent: int
    var blocked: bool
    var dataRecvd: int
    var dataConsumed: int
    var recvWindow: int
    var lastAdvertised: int

    ghost function Model(): Limits
      reads this
    {
      Limits(maxStreamData, dataSent, blocked, dataRecvd, dataConsumed, recvWindow, lastAdvertised)
    }

    constructor (initialMax: int, window: int)
      ensures Model() == Start(initialMax, window)
    {
      maxStreamData, dataSent, blocked := initialMax, 0, false;
      dataRecvd, dataConsumed, recvWindow, lastAdvertised := 0, 0, window, window;
    }

    method Available() returns (n: nat)
      ensures n == SendWindowAvailable(Model())
    {
      var avail := maxStreamData - dataSent;
      n := if avail < 0 then 0 else avail;
    }

    method BookSent(n: nat)
      modifies this
      ensures Model() == OnDataSent(old(Model()), n)
    {
      dataSent := dataSent + n;
      blocked := dataSent >= maxStreamData;
    }

    method HandleWindowUpdate(wire: nat) returns (advanced: bool)
      modifies this
      ensures Model() == ApplyWindowUpdate(old(Model()), wire)
      ensures advanced <==> maxStreamData > old(maxStreamData)
    {
      var base := maxStreamData - maxStreamData % TWO_32;
      var first := base + wire;
      var best := first;
      var cands := [first - TWO_32, first + TWO_32];
      for i := 0 to 2
        invariant best == if i == 0 then first
                          else if i == 1 then Nearer(first, first - TWO_32, maxStreamData)
                          else Reconstruct(wire, maxStreamData)
      {
        if Distance(cands[i], maxStreamData) < Distance(best, maxStreamData) { best := cands[i]; }
      }
      advanced := best > maxStreamData;
      if advanced {
        maxStreamData := best;
        blocked := dataSent >= maxStreamData;
      }
    }

    method BookReceived(n: nat)
      modifies this
      ensures Model() == OnDataReceived(old(Model()), n)
    {
      dataRecvd := dataRecvd + n;
    }

    method BookConsumed(n: nat) returns (update: bool)
      modifies this
      ensures (Model(), update) == OnDataConsumed(old(Model()), n)
    {
      dataConsumed := dataConsumed + n;
      var remaining := lastAdvertised - dataConsumed;
      update := remaining < recvWindow / 2;
    }

    method Advertise() returns (limit: int)
      modifies this
      ensures Model() == AdvertiseLimit(old(Model())) && limit == lastAdvertised
    {
      if recvWindow < MAX_WINDOW {
        recvWindow := recvWindow * 2;
        if recvWindow > MAX_WINDOW { recvWindow := MAX_WINDOW; }
      }
      limit := Refresh();
    }

    method Refresh() returns (limit: int)
      modifies this
      ensures Model() == RefreshLimit(old(Model())) && limit == lastAdvertised
    {
      limit := dataConsumed + recvWindow;
      if limit > lastAdvertised { lastAdvertised := limit; }
      limit := lastAdvertised;
    }
  }
}
