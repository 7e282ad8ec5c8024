/** The receiver's record of arrivals: a ring of flags over the last sequences, printed
    as the ranges of an ACK frame (section 13.2 of RFC 9000). */
module AckTracker {
  import opened Frames
  import opened Packets

  const ACK_HISTORY: nat := 512
  const MAX_ACK_RANGES: nat := 5
  const MAX_GAP: nat := 255

  ghost predicate IsLargest(arrived: set<nat>, n: nat) {
    n in arrived && forall s <- arrived :: s <= n
  }

  /** An arrival late or leaving a hole: either is acknowledged at once. */
  ghost predicate OutOfOrder(arrived: set<nat>, largest: nat, s: nat) {
    || (s < largest && !(s in arrived && largest - s < ACK_HISTORY))
    || s > largest + 1
  }

  // ----- What an ACK frame says about the arrivals -----

  /** The first sequence below the ranges, reading down from `hi`. */
  function BelowRanges(hi: int, ranges: seq<AckRange>): int
    decreases |ranges|
  {
    if ranges == [] then hi else BelowRanges(hi - ranges[0].gap - ranges[0].length, ranges[1..])
  }

  /** The lowest sequence the frame reaches down to. */
  function Lowest(f: AckFrame): int {
    BelowRanges(f.largestAcked - f.firstLength, f.ranges) + 1
  }

  /** Read back, the frame names exactly the received sequences from its lowest up to
      its largest, which is the largest received. */
  ghost predicate ExactDownToLowest(f: AckFrame, arrived: set<nat>) {
    && IsLargest(arrived, f.largestAcked)
    && 0 <= Lowest(f) <= f.largestAcked
    && f.largestAcked in Expand(f)
    && (forall s <- Expand(f) :: s in arrived && Lowest(f) <= s)
    && (forall s <- arrived :: Lowest(f) <= s ==> s in Expand(f))
  }

  /** It reaches the end of the history unless it ran out of ranges or met a gap too
      long for one range to state. */
  ghost predicate ReachesHistory(f: AckFrame, arrived: set<nat>) {
    || |f.ranges| == MAX_ACK_RANGES
    || (forall s <- arrived :: f.largestAcked - s < ACK_HISTORY ==> Lowest(f) <= s)
    || (forall s :: Lowest(f) - MAX_GAP - 1 <= s < Lowest(f) ==> s !in arrived)
  }

  /** Every range fits its field, and there are few enough of them. */
  ghost predicate Printable(f: AckFrame) {
    |f.ranges| <= MAX_ACK_RANGES && forall r <- f.ranges :: 1 <= r.gap <= MAX_GAP && r.length >= 1
  }

  lemma {:induction false} AppendRange(hi: int, ranges: seq<AckRange>, r: AckRange)
    ensures var below := BelowRanges(hi, ranges) - r.gap;
            && BelowRanges(hi, ranges + [r]) == below - r.length
            && ExpandRanges(hi, ranges + [r]) == ExpandRanges(hi, ranges) + RangeDown(below, r.length)
    decreases |ranges|
  {
    if ranges == [] {
      assert ranges + [r] == [r];
      assert ExpandRanges(hi - r.gap - r.length, []) == [];
    } else {
      var hi' := hi - ranges[0].gap - ranges[0].length;
      assert (ranges + [r])[1..] == ranges[1..] + [r];
      AppendRange(hi', ranges[1..], r);
    }
  }

  lemma RangeDownMembers(hi: int, n: nat)
    requires 0 <= hi - n + 1 && hi < TWO_32
    ensures forall s :: s in RangeDown(hi, n) <==> hi - n < s <= hi
  {
    forall s | hi - n < s <= hi ensures s in RangeDown(hi, n) {
      assert RangeDown(hi, n)[hi - s] == s;
    }
  }

  lemma OneMoreRange(f: AckFrame, r: AckRange)
    ensures var f' := f.(ranges := f.ranges + [r]);
            && Expand(f') == Expand(f) + RangeDown(Lowest(f) - 1 - r.gap, r.length)
            && Lowest(f') == Lowest(f) - r.gap - r.length
  {
    AppendRange(f.largestAcked - f.firstLength, f.ranges, r);
    hide RangeDown;
  }

  /** Appending the next run of arrivals below a gap keeps the frame exact. */
  lemma ExactOneMore(f: AckFrame, arrived: set<nat>, r: AckRange)
    requires ExactDownToLowest(f, arrived) && f.largestAcked < TWO_32
    requires r.length >= 1 && Lowest(f) - r.gap - r.length >= 0
    requires forall s :: Lowest(f) - r.gap <= s < Lowest(f) ==> s !in arrived
    requires forall s :: Lowest(f) - r.gap - r.length <= s < Lowest(f) - r.gap ==> s in arrived
    ensures ExactDownToLowest(f.(ranges := f.ranges + [r]), arrived)
    ensures Lowest(f.(ranges := f.ranges + [r])) == Lowest(f) - r.gap - r.length
  {
    hide Expand, Lowest, RangeDown;
    var f', more := f.(ranges := f.ranges + [r]), RangeDown(Lowest(f) - 1 - r.gap, r.length);
    OneMoreRange(f, r);
    RangeDownMembers(Lowest(f) - 1 - r.gap, r.length);
    assert forall s :: s in Expand(f') <==> s in Expand(f) || s in more;
  }

  lemma SlotsDiffer(j: nat, k: nat)
    requires j != k && -(ACK_HISTORY as int) < j - k < ACK_HISTORY
    ensures j % ACK_HISTORY != k % ACK_HISTORY
  {
  }

  class RecvTracker {
    var largest: nat
    var any: bool
    const bits: array<bool>
    ghost var arrived: set<nat>  // every sequence ever added

    ghost predicate Valid()
      reads this, bits
    {
      && bits.Length == ACK_HISTORY
      && (any <==> arrived != {})
      && (any ==> IsLargest(arrived, largest) && largest < TWO_32)
      && (!any ==> forall i :: 0 <= i < ACK_HISTORY ==> !bits[i])
      && (any ==> RingHolds(largest, arrived))
    }

    /** The slot of every sequence in the history up to `top` says whether it arrived. */
    ghost predicate RingHolds(top: nat, arrivals: set<nat>)
      requires bits.Length == ACK_HISTORY
      reads this, bits
    {
      forall k: nat :: k <= top && top - k < ACK_HISTORY ==> (bits[k % ACK_HISTORY] <==> k in arrivals)
    }

    method Set(s: nat, ghost top: nat)
      requires bits.Length == ACK_HISTORY && s <= top && top - s < ACK_HISTORY
      requires forall k: nat :: k <= top && top - k < ACK_HISTORY && k != s ==>
                 (bits[k % ACK_HISTORY] <==> k in arrived)
      modifies bits
      ensures RingHolds(top, arrived + {s})
    {
      forall k: nat | k <= top && top - k < ACK_HISTORY && k != s
        ensures k % ACK_HISTORY != s % ACK_HISTORY
      {
        SlotsDiffer(k, s);
      }
      bits[s % ACK_HISTORY] := true;
    }

    constructor ()
      ensures Valid() && arrived == {} && fresh(bits)
    {
      largest, any, arrived := 0, false, {};
      bits := new bool[ACK_HISTORY](_ => false);
    }

    /** The ring refines the set of all arrivals. */
    method Has(s: nat) returns (b: bool)
      requires Valid()
      ensures b <==> s in arrived && largest - s < ACK_HISTORY
    {
      if !any || s > largest || largest - s >= ACK_HISTORY { return false; }
      b := bits[s % ACK_HISTORY];
    }

    /** The slots between the old largest and `s` are reused for sequences that have
        not arrived. */
    method ClearBetween(s: nat)
      requires Valid() && any && largest < s
      modifies bits
      ensures forall k: nat :: k <= s && s - k < ACK_HISTORY && k != s ==>
                (bits[k % ACK_HISTORY] <==> k in arrived)
    {
      if s - largest >= ACK_HISTORY {
        forall i | 0 <= i < bits.Length { bits[i] := false; }
      } else {
        var k := largest + 1;
        while k < s
          invariant largest < k <= s
          invariant forall j: nat :: j < k && s - j < ACK_HISTORY ==>
                      (bits[j % ACK_HISTORY] <==> j in arrived)
        {
          bits[k % ACK_HISTORY] := false;
          k := k + 1;
        }
      }
    }

    method Add(s: nat) returns (outOfOrder: bool)
      requires Valid() && s < TWO_32
      modifies this, bits
      ensures Valid() && arrived == old(arrived) + {s}
      ensures outOfOrder <==> old(any) && OutOfOrder(old(arrived), old(largest), s)
    {
      outOfOrder := false;
      if !any {
        any, largest := true, s;
        Set(s, s);
      } else if s > largest {
        var gap := s - largest - 1;
        ClearBetween(s);
        largest := s;
        Set(s, s);
        outOfOrder := gap > 0;
      } else if s < largest {
        if largest - s >= ACK_HISTORY {
          outOfOrder := true;
        } else {
          var known := Has(s);
          if !known {
            Set(s, largest);
            outOfOrder := true;
          }
        }
      }
      arrived := arrived + {s};
    }

    /** Where the downward scan stands: `next` is the first sequence not yet looked at,
        and `steps` reaches the history once there is nothing more to look at. */
    ghost predicate ScanAt(cursor: nat, steps: nat, next: int)
      reads this
    {
      && -1 <= next <= largest && steps <= ACK_HISTORY
      && (steps < ACK_HISTORY ==> cursor == next && steps == largest - next)
      && (steps == ACK_HISTORY ==> next == -1 || largest - next >= ACK_HISTORY)
    }

    /** The run of received sequences from the cursor down. */
    method RunDown(cursor0: nat, steps0: nat, ghost next0: int)
      returns (n: nat, cursor: nat, steps: nat, ghost next: int)
      requires Valid() && any && ScanAt(cursor0, steps0, next0)
      ensures ScanAt(cursor, steps, next) && n == next0 - next
      ensures forall s :: next < s <= next0 ==> s in arrived
      ensures steps < ACK_HISTORY ==> next !in arrived
    {
      n, cursor, steps, next := 0, cursor0, steps0, next0;
      while true
        invariant ScanAt(cursor, steps, next) && n == next0 - next
        invariant forall s :: next < s <= next0 ==> s in arrived
        decreases next + 1, ACK_HISTORY - steps
      {
        var here := Has(cursor);
        if !(steps < ACK_HISTORY && here) { return; }
        n, steps, next := n + 1, steps + 1, next - 1;
        if cursor == 0 {
          steps := ACK_HISTORY;
          return;
        }
        cursor := cursor - 1;
      }
    }

    /** The run of missing ones, as long as a range's gap can state. */
    method GapDown(cursor0: nat, steps0: nat, ghost next0: int)
      returns (n: nat, cursor: nat, steps: nat, ghost next: int)
      requires Valid() && any && ScanAt(cursor0, steps0, next0)
      ensures ScanAt(cursor, steps, next) && n == next0 - next && n <= MAX_GAP
      ensures forall s :: next < s <= next0 ==> s !in arrived
      ensures steps < ACK_HISTORY && n < MAX_GAP ==> next in arrived
    {
      n, cursor, steps, next := 0, cursor0, steps0, next0;
      while true
        invariant ScanAt(cursor, steps, next) && n == next0 - next && n <= MAX_GAP
        invariant forall s :: next < s <= next0 ==> s !in arrived
        decreases next + 1, ACK_HISTORY - steps
      {
        var here := Has(cursor);
        if !(steps < ACK_HISTORY && n < MAX_GAP && !here) { return; }
        n, steps, next := n + 1, steps + 1, next - 1;
        if cursor == 0 {
          steps := ACK_HISTORY;
          return;
        }
        cursor := cursor - 1;
      }
    }

    /** The next range below `next`, or why there is none to print. */
    method NextRange(cursor0: nat, steps0: nat, ghost next0: int)
      returns (r: Option<AckRange>, cursor: nat, steps: nat, ghost next: int)
      requires Valid() && any && ScanAt(cursor0, steps0, next0) && steps0 < ACK_HISTORY && next0 !in arrived
      ensures ScanAt(cursor, steps, next) && (steps < ACK_HISTORY ==> next !in arrived)
      ensures r.Some? ==> 1 <= r.value.gap <= MAX_GAP && r.value.length >= 1
      ensures r.Some? ==> next == next0 - r.value.gap - r.value.length
      ensures r.Some? ==> forall s :: next0 - r.value.gap < s <= next0 ==> s !in arrived
      ensures r.Some? ==> forall s :: next < s <= next0 - r.value.gap ==> s in arrived
      ensures r.None? ==> (forall s <- arrived :: largest - s < ACK_HISTORY ==> next0 < s)
                          || (forall s :: next0 - MAX_GAP <= s <= next0 ==> s !in arrived)
    {
      var g, n: nat;
      r := None;
      g, cursor, steps, next := GapDown(cursor0, steps0, next0);
      if g == 0 { return; }
      n, cursor, steps, next := RunDown(cursor, steps, next);
      if n > 0 { r := Some(AckRange(g, n)); }
    }

    /** The largest sequence and the run directly below it. */
    method FirstRange(ackDelay: nat) returns (f: AckFrame, cursor: nat, steps: nat, ghost next: int)
      requires Valid() && any
      ensures f.largestAcked == largest && f.ackDelay == ackDelay && f.ranges == []
      ensures ExactDownToLowest(f, arrived) && Lowest(f) == next + 1
      ensures ScanAt(cursor, steps, next) && (steps < ACK_HISTORY ==> next !in arrived)
    {
      var n: nat;
      n, cursor, steps, next := RunDown(largest, 0, largest);
      f := AckFrame(largest, ackDelay, n, []);
      RangeDownMembers(largest, n);
      assert Expand(f) == RangeDown(largest, n);
    }

    /** The frame that acknowledges everything received. Before the first arrival the
        source prints sequence 0; the connection never asks then. */
    method Frame(ackDelay: nat) returns (f: AckFrame)
      requires Valid()
      ensures f.ackDelay == ackDelay && Printable(f)
      ensures any ==> ExactDownToLowest(f, arrived) && ReachesHistory(f, arrived)
      ensures !any ==> Expand(f) == [0]
    {
      if !any {
        f := AckFrame(0, ackDelay, 1, []);
        assert Expand(f) == [0];
        return;
      }
      hide ExactDownToLowest, Expand, Lowest;
      var cursor: nat, steps: nat;
      ghost var next: int;
      f, cursor, steps, next := FirstRange(ackDelay);
      var ended := false;
      while |f.ranges| < MAX_ACK_RANGES && steps < ACK_HISTORY && !ended
        invariant f.largestAcked == largest && f.ackDelay == ackDelay && Printable(f)
        invariant ExactDownToLowest(f, arrived)
        invariant !ended ==> Lowest(f) == next + 1
        invariant ScanAt(cursor, steps, next) && (steps < ACK_HISTORY ==> next !in arrived)
        invariant ended ==> ReachesHistory(f, arrived)
        decreases MAX_ACK_RANGES - |f.ranges|, !ended
      {
        var r: Option<AckRange>;
        r, cursor, steps, next := NextRange(cursor, steps, next);
        if r.None? {
          ended := true;
        } else {
          ExactOneMore(f, arrived, r.value);
          f := f.(ranges := f.ranges + [r.value]);
        }
      }
    }
  }
}
