/** The pacing token bucket (section 7.7 of RFC 9002), over reals: sends draw on a
    budget that refills at the rate and holds at most one burst. */
module Pacing {
  import opened Frames

  const PACING_BURST_PACKETS: nat := 10
  const MIN_PACING_DELAY: int := MILLISECOND

  type Rate = r: real | r > 0.0 witness 1.0

  type Positive = n: int | n > 0 witness 1

  /** `rate` is in bytes per second, `None` when unpaced; `lastSendTime` is `None`
      before the first paced send. */
  datatype Pacer = Pacer(rate: Option<Rate>, budgetAtLastSend: real, lastSendTime: Option<int>)

  function Unpaced(): Pacer { Pacer(None, 0.0, None) }

  function Seconds(ns: int): real { ns as real / 1_000_000_000.0 }

  /** What the rate is worth between two instants. */
  function Refill(rate: Rate, from: int, to: int): real { rate * Seconds(to - from) }

  /** gain * cwnd / srtt. */
  function RateFor(cwnd: Positive, srtt: Positive, slowStart: bool): Rate {
    var gain := if slowStart then 2.0 else 1.25;
    assert gain * cwnd as real > 0.0;
    assert Seconds(srtt) > 0.0;
    gain * cwnd as real / Seconds(srtt)
  }

  function UpdateRate(p: Pacer, cwnd: Positive, srtt: int, slowStart: bool): Pacer {
    p.(rate := if srtt <= 0 then None else Some(RateFor(cwnd, srtt, slowStart)))
  }

  /** One round trip at the rate carries twice the window in slow start and five quarters
      of it in congestion avoidance. */
  lemma WorthOfARoundTrip(cwnd: Positive, srtt: Positive, slowStart: bool, t: int)
    ensures 4.0 * Refill(RateFor(cwnd, srtt, slowStart), t, t + srtt)
            == (if slowStart then 8.0 else 5.0) * cwnd as real
  {
    var gain := if slowStart then 2.0 else 1.25;
    Over(gain * cwnd as real, Seconds(srtt));
  }

  lemma Over(a: real, b: real)
    requires b > 0.0
    ensures a / b * b == a
  {
  }

  /** The most the budget holds: ten datagrams or a millisecond at the rate, the larger. */
  function MaxBurst(rate: Rate): (b: real)
    ensures b >= 14720.0 && 1000.0 * b >= rate
    ensures b == 14720.0 || 1000.0 * b == rate
  {
    var byCount := (PACING_BURST_PACKETS * MAX_DATAGRAM_SIZE) as real;
    var byDelay := rate * Seconds(MIN_PACING_DELAY);
    if byDelay > byCount then byDelay else byCount
  }

  /** What may be sent at `now` without waiting, when the rate is finite. */
  function Budget(p: Pacer, rate: Rate, now: int): real {
    match p.lastSendTime
    case None => MaxBurst(rate)
    case Some(last) =>
      var b := p.budgetAtLastSend + Refill(rate, last, now);
      if b > MaxBurst(rate) then MaxBurst(rate) else b
  }

  function Ceil(x: real): int { -((-x).Floor) }

  /** Zero when the budget holds a full datagram, otherwise the time it takes to, and
      at least the minimum delay. */
  function TimeUntilSend(p: Pacer, now: int): int {
    match p.rate
    case None => 0
    case Some(rate) =>
      var short := MAX_DATAGRAM_SIZE as real - Budget(p, rate, now);
      if short <= 0.0 then 0
      else Max(Ceil(short / rate * 1_000_000_000.0), MIN_PACING_DELAY)
  }

  function OnSent(p: Pacer, size: nat, now: int): Pacer {
    match p.rate
    case None => p
    case Some(rate) =>
      p.(budgetAtLastSend := Budget(p, rate, now) - size as real, lastSendTime := Some(now))
  }

  /** A paced send takes its size out of the budget, whatever was in it; an unpaced one
      leaves no trace. */
  lemma SendDraws(p: Pacer, size: nat, now: int)
    ensures p.rate.Some? ==>
              Budget(OnSent(p, size, now), p.rate.value, now) == Budget(p, p.rate.value, now) - size as real
    ensures OnSent(p, size, now).rate == p.rate && (p.rate.None? ==> OnSent(p, size, now) == p)
  {
    if p.rate.Some? {
      RefillSplit(p.rate.value, now, now, now);
      BudgetCapped(p, p.rate.value, now);
      hide Refill, MaxBurst;
    }
  }

  // ----- The wait is sufficient, and no longer than it has to be -----

  lemma RefillSplit(rate: Rate, a: int, b: int, c: int)
    ensures Refill(rate, a, c) == Refill(rate, a, b) + Refill(rate, b, c)
    ensures Refill(rate, a, a) == 0.0
  {
    assert Seconds(c - a) == Seconds(b - a) + Seconds(c - b);
  }

  lemma RefillCovers(rate: Rate, short: real, from: int, wait: int)
    requires short > 0.0
    ensures wait as real >= short / rate * 1_000_000_000.0 <==> Refill(rate, from, from + wait) >= short
  {
    var need, s := short / rate, Seconds(wait);
    assert need * rate == short;
    assert wait as real == s * 1_000_000_000.0;
    assert s >= need ==> rate * (s - need) >= 0.0;
    assert s < need ==> rate * (need - s) > 0.0;
  }

  /** Waiting what `TimeUntilSend` asks for makes the next send admissible; any wait
      shorter than it (and not below the minimum delay) does not. */
  lemma WaitIsExact(p: Pacer, now: int, t: int)
    requires p.rate.Some? && p.lastSendTime.Some? && TimeUntilSend(p, now) > 0
    requires t >= 0
    ensures TimeUntilSend(p, now + TimeUntilSend(p, now)) == 0
    ensures MIN_PACING_DELAY <= t < TimeUntilSend(p, now) ==> TimeUntilSend(p, now + t) > 0
  {
    hide Refill;
    var rate, last := p.rate.value, p.lastSendTime.value;
    var short := MAX_DATAGRAM_SIZE as real - Budget(p, rate, now);
    var wait := TimeUntilSend(p, now);
    RefillSplit(rate, last, now, now + wait);
    RefillSplit(rate, last, now, now + t);
    RefillCovers(rate, short, now, wait);
    RefillCovers(rate, short, now, t);
    assert Budget(p, rate, now + wait) >= MAX_DATAGRAM_SIZE as real;
  }

  /** The budget holds a datagram at `at`. */
  predicate CoversAt(p: Pacer, rate: Rate, at: int) { Budget(p, rate, at) >= MAX_DATAGRAM_SIZE as real }

  /** From the wait on the budget holds a datagram, and no sooner. */
  lemma CoversFrom(p: Pacer, now: int, t: int)
    requires p.rate.Some? && TimeUntilSend(p, now) > 0 && t >= MIN_PACING_DELAY
    ensures CoversAt(p, p.rate.value, now + t) <==> t >= TimeUntilSend(p, now)
  {
    hide Refill;
    var rate, last := p.rate.value, p.lastSendTime.value;
    RefillSplit(rate, last, now, now + t);
    RefillCovers(rate, MAX_DATAGRAM_SIZE as real - Budget(p, rate, now), now, t);
  }

  // ----- Conformance over any interval of any run -----

  datatype Send = Send(at: int, size: nat)

  function Bytes(sends: seq<Send>): nat {
    if sends == [] then 0 else Bytes(sends[..|sends| - 1]) + sends[|sends| - 1].size
  }

  /** The pacer after a run of sends. */
  function After(p: Pacer, sends: seq<Send>): Pacer {
    if sends == [] then p
    else
      var s := sends[|sends| - 1];
      OnSent(After(p, sends[..|sends| - 1]), s.size, s.at)
  }

  lemma {:induction false} AfterSplit(p: Pacer, a: seq<Send>, b: seq<Send>)
    ensures After(p, a + b) == After(After(p, a), b)
    decreases |b|
  {
    if b == [] {
      assert a + b == a;
    } else {
      assert (a + b)[..|a + b| - 1] == a + b[..|b| - 1];
      AfterSplit(p, a, b[..|b| - 1]);
    }
  }

  /** What a run of sends takes out of the bucket is what it held, plus the refill,
      less what is left (negative after a batch that overshot). */
  lemma {:induction false} SpentFromBudget(p: Pacer, rate: Rate, sends: seq<Send>)
    requires p.rate == Some(rate) && sends != []
    ensures After(p, sends).rate == p.rate
    ensures After(p, sends).lastSendTime == Some(sends[|sends| - 1].at)
    ensures Bytes(sends) as real <= Budget(p, rate, sends[0].at)
              + Refill(rate, sends[0].at, sends[|sends| - 1].at) - After(p, sends).budgetAtLastSend
  {
    hide Refill, MaxBurst;
    var init, s := sends[..|sends| - 1], sends[|sends| - 1];
    if init == [] {
      assert Bytes(init) == 0;
      RefillSplit(rate, s.at, s.at, s.at);
    } else {
      SpentFromBudget(p, rate, init);
      RefillSplit(rate, sends[0].at, init[|init| - 1].at, s.at);
    }
  }

  predicate AdmittedNow(p: Pacer, s: Send) {
    TimeUntilSend(p, s.at) == 0 && s.size <= MAX_DATAGRAM_SIZE
  }

  /** Every send of the run went out when the pacer asked for no wait, and none was
      larger than a datagram: what the re-send queue does. */
  predicate Admitted(p: Pacer, sends: seq<Send>) {
    forall k :: 0 <= k < |sends| ==> AdmittedNow(After(p, sends[..k]), sends[k])
  }

  /** Over any interval of a run at a constant rate, the bytes sent never exceed one
      burst plus what the rate allows for the time elapsed. */
  lemma {:induction false} NeverAboveTheRate(p: Pacer, rate: Rate, sends: seq<Send>, i: nat, j: nat)
    requires p.rate == Some(rate) && Admitted(p, sends) && i < j <= |sends|
    ensures Bytes(sends[i..j]) as real <= MaxBurst(rate) + Refill(rate, sends[i].at, sends[j - 1].at)
  {
    hide *;
    var p0, here := After(p, sends[..i]), sends[i..j];
    var init := here[..|here| - 1];
    RateKept(p, sends[..i]);
    SpentFromBudget(p0, rate, here);
    assert sends[..j - 1] == sends[..i] + init;
    AfterSplit(p, sends[..i], init);
    RateKept(p, sends[..j - 1]);
    AdmittedAt(p, sends, j - 1);
    LeavesSomething(After(p0, init), sends[j - 1]);
    AfterLast(p0, here);
    BudgetCapped(p0, rate, sends[i].at);
  }

  lemma AdmittedAt(p: Pacer, sends: seq<Send>, k: nat)
    requires Admitted(p, sends) && k < |sends|
    ensures AdmittedNow(After(p, sends[..k]), sends[k])
  {
    hide AdmittedNow, After;
  }

  lemma AfterLast(p: Pacer, sends: seq<Send>)
    requires sends != []
    ensures var s := sends[|sends| - 1]; After(p, sends) == OnSent(After(p, sends[..|sends| - 1]), s.size, s.at)
  {
    hide OnSent;
  }

  lemma BudgetCapped(p: Pacer, rate: Rate, now: int)
    ensures Budget(p, rate, now) <= MaxBurst(rate)
  {
    hide Refill, MaxBurst;
  }

  /** A send the pacer admits does not overdraw the bucket. */
  lemma LeavesSomething(p: Pacer, s: Send)
    requires p.rate.Some? && AdmittedNow(p, s)
    ensures OnSent(p, s.size, s.at).budgetAtLastSend >= 0.0
  {
    hide Refill, MaxBurst;
  }

  lemma {:induction false} RateKept(p: Pacer, sends: seq<Send>)
    ensures After(p, sends).rate == p.rate
  {
    if sends != [] { RateKept(p, sends[..|sends| - 1]); }
  }

  class PacingController {
    var rate: Option<Rate>
    var budgetAtLastSend: real
    var lastSendTime: Option<int>

    ghost function Model(): Pacer
      reads this
    {
      Pacer(rate, budgetAtLastSend, lastSendTime)
    }

    constructor ()
      ensures Model() == Unpaced()
    {
      rate, budgetAtLastSend, lastSendTime := None, 0.0, None;
    }

    method SetRate(cwnd: Positive, srtt: int, slowStart: bool)
      modifies this
      ensures Model() == UpdateRate(old(Model()), cwnd, srtt, slowStart)
    {
      if srtt <= 0 {
        rate := None;
      } else {
        rate := Some(RateFor(cwnd, srtt, slowStart));
      }
    }

    /** No wait exactly when unpaced or the budget holds a datagram; otherwise the least
        wait, of the minimum delay or more, from which on it does. */
    method Wait(now: int) returns (wait: int)
      ensures wait == TimeUntilSend(Model(), now)
      ensures wait == 0 <==> rate.None? || CoversAt(Model(), rate.value, now)
      ensures wait != 0 ==> wait >= MIN_PACING_DELAY
      ensures wait != 0 ==> forall at :: at >= now + wait ==> CoversAt(Model(), rate.value, at)
      ensures wait != 0 ==>
              forall at :: now + MIN_PACING_DELAY <= at < now + wait ==> !CoversAt(Model(), rate.value, at)
    {
      if rate.None? { return 0; }
      var budget := Budget(Pacer(rate, budgetAtLastSend, lastSendTime), rate.value, now);
      if budget >= MAX_DATAGRAM_SIZE as real { return 0; }
      wait := Ceil((MAX_DATAGRAM_SIZE as real - budget) / rate.value * 1_000_000_000.0);
      if wait < MIN_PACING_DELAY { wait := MIN_PACING_DELAY; }
      forall at | at >= now + MIN_PACING_DELAY ensures CoversAt(Model(), rate.value, at) <==> at >= now + wait {
        CoversFrom(Model(), now, at - now);
      }
    }

    method Draw(size: nat, now: int)
      modifies this
      ensures Model() == OnSent(old(Model()), size, now)
    {
      if rate.Some? {
        budgetAtLastSend := Budget(Pacer(rate, budgetAtLastSend, lastSendTime), rate.value, now) - size as real;
        lastSendTime := Some(now);
      }
    }
  }
}
