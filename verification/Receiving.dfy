/** When the receiver acknowledges (section 13.2 of RFC 9000): at once when a packet is
    out of order, opens or closes a stream, or is the second one owed an ACK; otherwise
    when a short timer elapses. */
module Receiving {
  import opened Frames
  import opened AckTracker

  const ACK_ELICITING_THRESHOLD: nat := 2
  const MIN_ACK_DELAY: int := MILLISECOND
  const MAX_DELAY_FIELD: nat := 65535

  /** Whole milliseconds from `since` to `now`, as many as the field holds; none if the
      clock went back. */
  ghost function Waited(since: int, now: int): (d: nat)
    ensures d <= MAX_DELAY_FIELD && (now < since ==> d == 0)
    ensures d == MAX_DELAY_FIELD ==> d * MILLISECOND <= now - since
    ensures since <= now && d < MAX_DELAY_FIELD ==> d * MILLISECOND <= now - since < (d + 1) * MILLISECOND
  {
    if now < since then 0 else Min((now - since) / MILLISECOND, MAX_DELAY_FIELD)
  }

  class AckScheduler {
    const recvd: RecvTracker
    var ackPending: nat
    var ackTimer: Option<int>
    var largestArrival: Option<int>
    ghost var owed: set<nat>  // arrived since the last ACK
    ghost var owedSince: int  // when the first of them did
    ghost var cameAt: map<nat, int>  // when each sequence first arrived

    /** Nothing waits for its ACK without a timer, set for no later than the longest
        delay after it arrived. */
    ghost predicate Valid()
      reads this, recvd, recvd.bits
    {
      && recvd.Valid() && owed <= recvd.arrived
      && (owed != {} <==> ackPending > 0) && ackPending < ACK_ELICITING_THRESHOLD
      && (ackPending > 0 <==> ackTimer.Some?)
      && (ackTimer.Some? ==> owedSince + MIN_ACK_DELAY <= ackTimer.value <= owedSince + MAX_ACK_DELAY)
      && Timed()
    }

    /** The one arrival time kept is that of the largest sequence. */
    ghost predicate Timed()
      reads this, recvd
    {
      && cameAt.Keys == recvd.arrived
      && (recvd.any ==> recvd.largest in cameAt && largestArrival == Some(cameAt[recvd.largest]))
    }

    constructor ()
      ensures Valid() && owed == {} && recvd.arrived == {} && fresh(recvd) && fresh(recvd.bits)
    {
      recvd := new RecvTracker();
      ackPending, ackTimer, largestArrival, owed, owedSince, cameAt := 0, None, None, {}, 0, map[];
    }

    /** Record an arrival, and when it came if it is the largest yet. */
    method Record(s: nat, now: int) returns (outOfOrder: bool)
      requires recvd.Valid() && Timed() && s < TWO_32
      modifies `largestArrival, `cameAt, recvd, recvd.bits
      ensures recvd.Valid() && Timed() && recvd.any && recvd.arrived == old(recvd.arrived) + {s}
      ensures cameAt == if s in old(cameAt) then old(cameAt) else old(cameAt)[s := now]
      ensures outOfOrder <==> old(recvd.any) && OutOfOrder(old(recvd.arrived), old(recvd.largest), s)
    {
      hide OutOfOrder;
      var hadAny, before := recvd.any, recvd.largest;
      outOfOrder := recvd.Add(s);
      if s !in cameAt { cameAt := cameAt[s := now]; }
      if !hadAny || recvd.largest != before { largestArrival := Some(now); }
    }

    /** Record an arrival, and acknowledge it now or later. */
    method NoteReceived(s: nat, edge: bool, srtt: int, now: int) returns (frame: Option<AckFrame>)
      requires Valid() && s < TWO_32
      modifies this, recvd, recvd.bits
      ensures Valid() && recvd.arrived == old(recvd.arrived) + {s}
      ensures cameAt == if s in old(cameAt) then old(cameAt) else old(cameAt)[s := now]
      ensures frame.Some? <==>
                edge || old(ackPending) + 1 >= ACK_ELICITING_THRESHOLD
                || (old(recvd.any) && OutOfOrder(old(recvd.arrived), old(recvd.largest), s))
      ensures frame.Some? ==> owed == {} && ExactDownToLowest(frame.value, recvd.arrived)
                              && ReachesHistory(frame.value, recvd.arrived)
                              && frame.value.ackDelay == Waited(cameAt[recvd.largest], now)
      ensures frame.None? ==> owed == old(owed) + {s}
                              && ackTimer == Some(now + Max(MILLISECOND, Min(srtt / 4, 25 * MILLISECOND)))
    {
      hide ExactDownToLowest, ReachesHistory, OutOfOrder, Waited;
      var outOfOrder := Record(s, now);
      ackPending := ackPending + 1;
      if outOfOrder || edge || ackPending >= ACK_ELICITING_THRESHOLD {
        var f := TakeAck(now);
        return Some(f);
      }
      if ackTimer.None? {
        var delay := srtt / 4;
        if delay < MIN_ACK_DELAY { delay := MIN_ACK_DELAY; }
        if delay > MAX_ACK_DELAY { delay := MAX_ACK_DELAY; }
        ackTimer := Some(now + delay);
      }
      owed, owedSince := owed + {s}, now;
      frame := None;
    }

    /** The timer elapses: whatever is owed is acknowledged. */
    method TimerFired(now: int) returns (frame: Option<AckFrame>)
      requires Valid()
      modifies this
      ensures Valid() && owed == {} && (frame.Some? <==> old(owed) != {})
      ensures frame.Some? ==> ExactDownToLowest(frame.value, recvd.arrived)
                              && ReachesHistory(frame.value, recvd.arrived)
                              && frame.value.ackDelay == Waited(cameAt[recvd.largest], now)
    {
      ackTimer := None;
      if ackPending == 0 { return None; }
      var f := TakeAck(now);
      frame := Some(f);
    }

    /** The ACK for everything received, saying how long the largest waited for it. */
    method TakeAck(now: int) returns (f: AckFrame)
      requires recvd.Valid() && recvd.any && Timed()
      modifies this
      ensures recvd.Valid() && ackPending == 0 && ackTimer.None? && owed == {} && owedSince == old(owedSince)
      ensures Timed() && cameAt == old(cameAt) && largestArrival == old(largestArrival)
      ensures ExactDownToLowest(f, recvd.arrived) && ReachesHistory(f, recvd.arrived)
      ensures f.ackDelay == Waited(cameAt[recvd.largest], now)
    {
      ackPending, ackTimer, owed := 0, None, {};
      var delay := 0;
      if largestArrival.Some? {
        var waited := now - largestArrival.value;
        if waited >= MILLISECOND {
          delay := waited / MILLISECOND;
          if delay > MAX_DELAY_FIELD { delay := MAX_DELAY_FIELD; }
        }
      }
      f := recvd.Frame(delay);
    }
  }
}
