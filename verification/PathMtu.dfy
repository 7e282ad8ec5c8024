/** Path-MTU discovery (RFC 8899): a binary search over probe sizes, and the fall back
    to the base size when the path stops carrying the validated one. */
module PathMtu {
  import opened Frames

  const MTU_PROBE_TRIES: nat := 3
  const MTU_SEARCH_STEP: nat := 16
  const BLACKHOLE_PACKETS: nat := 3
  const BLACKHOLE_PTOS: nat := 3
  const BLACKHOLE_RETRY: int := 60 * SECOND

  datatype Search = Search(
    current: nat, probe: nat, lowFailed: nat, tries: nat,
    inFlight: bool, done: bool, retryAt: Option<int>, largeLost: nat)

  function Restarted(m: Search): Search {
    m.(probe := MAX_DATAGRAM_SIZE, lowFailed := MAX_DATAGRAM_SIZE + 1, tries := 0,
       inFlight := false, done := false, retryAt := None, largeLost := 0)
  }

  function Start(): Search {
    Search(SAFE_DATAGRAM_SIZE, MAX_DATAGRAM_SIZE, MAX_DATAGRAM_SIZE + 1, 0, false, false, None, 0)
  }

  /** The size to probe now, 0 for none. */
  function NextProbe(m: Search, now: int): (Search, nat) {
    if m.retryAt.Some? && now < m.retryAt.value then (m, 0)
    else
      var m1 := if m.retryAt.Some? then Restarted(m) else m;
      if m1.done || m1.inFlight then (m1, 0) else (m1.(inFlight := true), m1.probe)
  }

  function Next(m: Search): Search {
    if m.lowFailed as int - m.current <= MTU_SEARCH_STEP then m.(done := true, probe := 0)
    else m.(probe := (m.current + m.lowFailed) / 2)
  }

  function OnProbeAcked(m: Search, size: nat): Search {
    var m1 := m.(inFlight := false);
    if m.retryAt.Some? then m1
    else Next(m1.(current := Max(m.current, size), tries := 0))
  }

  function OnProbeLost(m: Search, size: nat): Search {
    var m1 := m.(inFlight := false);
    if m.retryAt.Some? then m1
    else if m.tries + 1 < MTU_PROBE_TRIES then m1.(tries := m.tries + 1)
    else Next(m1.(tries := 0, lowFailed := Min(m.lowFailed, size)))
  }

  function OnDataAcked(m: Search, size: nat): Search {
    if size > SAFE_DATAGRAM_SIZE then m.(largeLost := 0) else m
  }

  function OnDataLost(m: Search, size: nat, now: int): Search {
    if m.current <= SAFE_DATAGRAM_SIZE || size <= SAFE_DATAGRAM_SIZE then m
    else
      var m1 := m.(largeLost := m.largeLost + 1);
      if m1.largeLost >= BLACKHOLE_PACKETS then Blackhole(m1, now) else m1
  }

  function Blackhole(m: Search, now: int): Search {
    if m.current <= SAFE_DATAGRAM_SIZE then m
    else
      m.(current := SAFE_DATAGRAM_SIZE, probe := 0, done := true, inFlight := false,
         largeLost := 0, retryAt := Some(now + BLACKHOLE_RETRY))
  }

  // ----- The search over every run of events -----

  datatype Event =
    | Ask(now: int)
    | ProbeAcked(size: nat)
    | ProbeLost(size: nat)
    | DataAcked(size: nat)
    | DataLost(size: nat, now: int)
    | PtoBlackhole(now: int)

  function Step(m: Search, e: Event): Search {
    match e
    case Ask(now) => NextProbe(m, now).0
    case ProbeAcked(size) => OnProbeAcked(m, size)
    case ProbeLost(size) => OnProbeLost(m, size)
    case DataAcked(size) => OnDataAcked(m, size)
    case DataLost(size, now) => OnDataLost(m, size, now)
    case PtoBlackhole(now) => Blackhole(m, now)
  }

  /** The event can happen on a path that carries exactly `path` bytes: a probe's
      outcome belongs to the probe in flight, and only what fits is acknowledged. */
  predicate Possible(m: Search, e: Event, path: nat) {
    match e
    case ProbeAcked(size) => m.inFlight && size == m.probe && size <= path
    case ProbeLost(size) => m.inFlight && size == m.probe
    case _ => true
  }

  predicate Searching(m: Search) { !m.done && m.retryAt.None? }

  predicate SearchOk(m: Search, path: nat) {
    && SAFE_DATAGRAM_SIZE <= m.current <= path
    && m.current <= MAX_DATAGRAM_SIZE
    && m.lowFailed <= MAX_DATAGRAM_SIZE + 1
    && (!m.done ==> m.retryAt.None? && m.current < m.probe < m.lowFailed && m.tries < MTU_PROBE_TRIES)
    && (m.retryAt.Some? ==> m.current == SAFE_DATAGRAM_SIZE && !m.inFlight)
    && (m.done ==> !m.inFlight)
    && (m.done && m.retryAt.None? ==> m.current < m.lowFailed <= m.current + MTU_SEARCH_STEP)
  }

  lemma StepKeepsSearchOk(m: Search, e: Event, path: nat)
    requires SAFE_DATAGRAM_SIZE <= path && SearchOk(m, path) && Possible(m, e, path)
    ensures SearchOk(Step(m, e), path)
  {
  }

  function Run(m: Search, es: seq<Event>): Search
    decreases |es|
  {
    if es == [] then m else Step(Run(m, es[..|es| - 1]), es[|es| - 1])
  }

  predicate PossibleRun(m: Search, es: seq<Event>, path: nat) {
    forall k :: 0 <= k < |es| ==> Possible(Run(m, es[..k]), es[k], path)
  }

  /** In every run, streams are never given a size the path does not carry, and while
      the search is on the probed size lies strictly between validated and ruled out. */
  lemma {:induction false} NeverAboveThePath(es: seq<Event>, path: nat)
    requires SAFE_DATAGRAM_SIZE <= path && PossibleRun(Start(), es, path)
    ensures var m := Run(Start(), es);
            && SAFE_DATAGRAM_SIZE <= m.current <= path
            && (Searching(m) ==> m.current < m.probe < m.lowFailed)
            && SearchOk(m, path)
  {
    if es != [] {
      var init := es[..|es| - 1];
      forall k | 0 <= k < |init| ensures Possible(Run(Start(), init[..k]), init[k], path) {
        assert init[..k] == es[..k];
      }
      NeverAboveThePath(init, path);
      assert es[..|es| - 1] == init;
      StepKeepsSearchOk(Run(Start(), init), es[|es| - 1], path);
    }
  }

  // ----- The search ends, quickly, and at the right size -----

  /** Rounds of halving left for a span between validated and ruled out. */
  function Rounds(span: nat): nat
    decreases span
  {
    if span <= MTU_SEARCH_STEP then 0 else 1 + Rounds((span + 1) / 2)
  }

  lemma RoundsMono(a: nat, b: nat)
    requires a <= b
    ensures Rounds(a) <= Rounds(b)
    decreases b
  {
    if a > MTU_SEARCH_STEP { RoundsMono((a + 1) / 2, (b + 1) / 2); }
  }

  /** The first probe is at the top of the range, not in its middle. */
  predicate AtTop(m: Search) {
    m.probe == MAX_DATAGRAM_SIZE && m.lowFailed == MAX_DATAGRAM_SIZE + 1
  }

  /** The probe under test is the top of the range or the middle of what is left. */
  predicate Halving(m: Search) {
    && m.retryAt.None? && m.current < m.lowFailed <= MAX_DATAGRAM_SIZE + 1
    && (m.done || m.tries < MTU_PROBE_TRIES)
    && (m.done || AtTop(m)
        || (m.probe == (m.current + m.lowFailed) / 2 && m.lowFailed - m.current > MTU_SEARCH_STEP))
  }

  /** Probe outcomes the search can still need. */
  function Left(m: Search): nat
    requires Halving(m)
  {
    if m.done then 0
    else
      var rounds := if AtTop(m) then 1 + Rounds(MAX_DATAGRAM_SIZE - m.current)
                    else Rounds(m.lowFailed - m.current);
      MTU_PROBE_TRIES * rounds - m.tries
  }

  /** Every probe outcome uses up at least one of the outcomes left. */
  lemma OutcomeUsesOne(m: Search, e: Event)
    requires Halving(m) && !m.done && m.inFlight && m.current < m.probe < m.lowFailed
    requires e == ProbeAcked(m.probe) || e == ProbeLost(m.probe)
    ensures Halving(Step(m, e)) && Left(Step(m, e)) < Left(m)
  {
    var m' := Step(m, e);
    var span := m.lowFailed - m.current;
    if e.ProbeLost? && m.tries + 1 < MTU_PROBE_TRIES {
    } else if AtTop(m) {
      RoundsMono(m'.lowFailed - m'.current, MAX_DATAGRAM_SIZE - m.current);
    } else {
      RoundsMono(m'.lowFailed - m'.current, (span + 1) / 2);
      assert Rounds(span) == 1 + Rounds((span + 1) / 2);
    }
  }

  /** A search from the start is over after at most eighteen probe outcomes. */
  lemma AtMostEighteenProbes()
    ensures Halving(Start()) && Left(Start()) == 18
  {
    assert Rounds(272) == 1 + Rounds(136);
    assert Rounds(136) == 1 + Rounds(68);
    assert Rounds(68) == 1 + Rounds(34);
    assert Rounds(34) == 1 + Rounds(17);
    assert Rounds(17) == 1 + Rounds(9);
  }

  predicate Outcomes(es: seq<Event>) {
    forall e <- es :: e.ProbeAcked? || e.ProbeLost? || e.Ask?
  }

  function OutcomeCount(es: seq<Event>): nat {
    if es == [] then 0
    else OutcomeCount(es[..|es| - 1]) + if es[|es| - 1].Ask? then 0 else 1
  }

  /** Sizes at or below the path get through, larger ones do not. */
  predicate ExactPath(es: seq<Event>, path: nat) {
    forall e <- es :: (e.ProbeAcked? ==> e.size <= path) && (e.ProbeLost? ==> e.size > path)
  }

  /** What a run of probe outcomes keeps. */
  predicate Closing(m: Search, path: nat, outcomes: nat) {
    SearchOk(m, path) && Halving(m) && outcomes + Left(m) <= 18
  }

  lemma StepKeepsClosing(m: Search, e: Event, path: nat, outcomes: nat)
    requires SAFE_DATAGRAM_SIZE <= path && Closing(m, path, outcomes)
    requires Possible(m, e, path) && (e.Ask? || e.ProbeAcked? || e.ProbeLost?)
    ensures Closing(Step(m, e), path, outcomes + if e.Ask? then 0 else 1)
  {
    StepKeepsSearchOk(m, e, path);
    if !e.Ask? { OutcomeUsesOne(m, e); }
  }

  /** However the probes turn out, acknowledged or lost, a search from the start is over
      after at most eighteen outcomes. */
  lemma {:induction false} EndsWithinEighteen(es: seq<Event>, path: nat)
    requires SAFE_DATAGRAM_SIZE <= path && PossibleRun(Start(), es, path) && Outcomes(es)
    ensures Closing(Run(Start(), es), path, OutcomeCount(es))
    ensures OutcomeCount(es) <= 18 && (OutcomeCount(es) == 18 ==> Run(Start(), es).done)
  {
    if es == [] {
      AtMostEighteenProbes();
    } else {
      var init, e := es[..|es| - 1], es[|es| - 1];
      assert e in es && forall x :: x in init ==> x in es;
      ShorterRun(es, path);
      EndsWithinEighteen(init, path);
      StepKeepsClosing(Run(Start(), init), e, path, OutcomeCount(init));
    }
    SomeLeft(Run(Start(), es), path);
  }

  lemma ShorterRun(es: seq<Event>, path: nat)
    requires es != [] && PossibleRun(Start(), es, path)
    ensures PossibleRun(Start(), es[..|es| - 1], path)
  {
    var init := es[..|es| - 1];
    forall k | 0 <= k < |init| ensures Possible(Run(Start(), init[..k]), init[k], path) {
      assert init[..k] == es[..k];
    }
  }

  /** A search that is still on has an outcome left to wait for. */
  lemma SomeLeft(m: Search, path: nat)
    requires SearchOk(m, path) && Halving(m)
    ensures m.done <==> Left(m) == 0
  {
    if !m.done && !AtTop(m) { assert Rounds(m.lowFailed - m.current) > 0; }
  }

  /** On a path that loses exactly the larger sizes, once the search is done the size
      found is the true one or less than one step below it. */
  lemma {:induction false} SettlesWithinAStep(es: seq<Event>, path: nat)
    requires SAFE_DATAGRAM_SIZE <= path <= MAX_DATAGRAM_SIZE
    requires PossibleRun(Start(), es, path) && Outcomes(es) && ExactPath(es, path)
    ensures var m := Run(Start(), es);
            && path < m.lowFailed && OutcomeCount(es) <= 18
            && (m.done ==> path - MTU_SEARCH_STEP < m.current <= path)
  {
    EndsWithinEighteen(es, path);
    if es != [] {
      var init, e := es[..|es| - 1], es[|es| - 1];
      assert e in es && forall x :: x in init ==> x in es;
      ShorterRun(es, path);
      EndsWithinEighteen(init, path);
      SettlesWithinAStep(init, path);
    }
  }

  // ----- When the search asks, and when the path is given up -----

  /** After a fall back nothing is probed until the retry is due, and then the search
      starts again from the top, keeping the size in use. Otherwise the size under test is
      probed once, until its outcome is in. */
  lemma AsksWhenDue(m: Search, now: int)
    ensures var (m', size) := NextProbe(m, now);
            && m'.current == m.current && (size > 0 ==> m'.inFlight && m'.probe == size)
            && (m.retryAt.Some? && now < m.retryAt.value ==> size == 0 && m' == m)
            && (m.retryAt.Some? && now >= m.retryAt.value ==>
                  size == MAX_DATAGRAM_SIZE && AtTop(m') && Searching(m') && m'.tries == 0 && m'.largeLost == 0)
            && (m.retryAt.None? && (m.done || m.inFlight) ==> size == 0 && m' == m)
            && (m.retryAt.None? && !m.done && !m.inFlight ==> size == m.probe && m' == m.(inFlight := true))
  {
  }

  /** A size is ruled out by its third loss in a row, and by no earlier one; an
      acknowledged one is the size in use from then on. */
  lemma ThirdLossRulesOut(m: Search, size: nat)
    requires m.retryAt.None? && m.tries < 3
    ensures var (a, l) := (OnProbeAcked(m, size), OnProbeLost(m, size));
            && !a.inFlight && a.current == Max(m.current, size) && a.lowFailed == m.lowFailed && a.tries == 0
            && !l.inFlight && l.current == m.current
            && (m.tries < 2 ==> l == m.(tries := m.tries + 1, inFlight := false))
            && (m.tries == 2 ==> l.lowFailed == Min(m.lowFailed, size) && l.tries == 0)
  {
  }

  /** Data packets larger than the base size lost since the last such one acknowledged,
      counting from `n`. */
  function Streak(n: nat, es: seq<Event>): nat {
    if es == [] then n
    else
      var before, e := Streak(n, es[..|es| - 1]), es[|es| - 1];
      if e.DataAcked? && e.size > SAFE_DATAGRAM_SIZE then 0
      else if e.DataLost? && e.size > SAFE_DATAGRAM_SIZE then before + 1
      else before
  }

  predicate DataOutcomes(es: seq<Event>) { forall e <- es :: e.DataAcked? || e.DataLost? }

  /** Three large packets were lost in a row somewhere along the run. */
  ghost predicate ThreeInARow(n: nat, es: seq<Event>) {
    exists k :: 0 <= k <= |es| && Streak(n, es[..k]) >= 3
  }

  /** Whatever data packets are acknowledged and lost, the path is given up exactly when
      three large ones in a row are lost with no large one acknowledged between; until
      then only the count moves. */
  lemma {:induction false} GivesUpOnTheThird(m: Search, es: seq<Event>)
    requires m.current > SAFE_DATAGRAM_SIZE && m.largeLost < 3 && DataOutcomes(es)
    ensures var m' := Run(m, es);
            && (ThreeInARow(m.largeLost, es) ==>
                  m'.current == SAFE_DATAGRAM_SIZE && m'.done && !m'.inFlight && m'.retryAt.Some?)
            && (!ThreeInARow(m.largeLost, es) ==> m' == m.(largeLost := Streak(m.largeLost, es)))
  {
    assert es[..|es|] == es;
    if es == [] {
      assert !ThreeInARow(m.largeLost, es);
    } else {
      var init, e := es[..|es| - 1], es[|es| - 1];
      assert e in es && forall x :: x in init ==> x in es;
      GivesUpOnTheThird(m, init);
      OneMoreOutcome(m.largeLost, es);
    }
  }

  lemma OneMoreOutcome(n: nat, es: seq<Event>)
    requires es != []
    ensures ThreeInARow(n, es) <==> ThreeInARow(n, es[..|es| - 1]) || Streak(n, es) >= 3
  {
    var init := es[..|es| - 1];
    assert forall k :: 0 <= k <= |init| ==> init[..k] == es[..k];
    assert es[..|es|] == es;
    if ThreeInARow(n, es) {
      var k :| 0 <= k <= |es| && Streak(n, es[..k]) >= 3;
      assert k <= |init| ==> Streak(n, init[..k]) >= 3;
    }
    if ThreeInARow(n, init) {
      var k :| 0 <= k <= |init| && Streak(n, init[..k]) >= 3;
      assert Streak(n, es[..k]) >= 3;
    }
  }

  /** Giving the path up sets the retry a minute from the loss that did it. */
  lemma RetryInAMinute(m: Search, size: nat, now: int)
    requires m.current > SAFE_DATAGRAM_SIZE
    ensures Blackhole(m, now).retryAt == Some(now + 60 * SECOND)
    ensures size > SAFE_DATAGRAM_SIZE && m.largeLost >= 2 ==>
              OnDataLost(m, size, now).retryAt == Some(now + 60 * SECOND)
  {
  }

  class MTUDiscovery {
    var current: nat
    var probe: nat
    var lowFailed: nat
    var tries: nat
    var inFlight: bool
    var done: bool
    var retryAt: Option<int>
    var largeLost: nat

    ghost function Model(): Search
      reads this
    {
      Search(current, probe, lowFailed, tries, inFlight, done, retryAt, largeLost)
    }

    constructor ()
      ensures Model() == Start()
    {
      current := SAFE_DATAGRAM_SIZE;
      new;
      Restart();
    }

    method Restart()
      modifies this
      ensures Model() == Restarted(old(Model()))
    {
      probe, lowFailed, tries := MAX_DATAGRAM_SIZE, MAX_DATAGRAM_SIZE + 1, 0;
      inFlight, done, retryAt, largeLost := false, false, None, 0;
    }

    method ProbeNow(now: int) returns (size: nat)
      modifies this
      ensures (Model(), size) == NextProbe(old(Model()), now)
    {
      if retryAt.Some? {
        if now < retryAt.value { return 0; }
        Restart();
      }
      if done || inFlight { return 0; }
      inFlight := true;
      size := probe;
    }

    method Advance()
      modifies this
      ensures Model() == Next(old(Model()))
    {
      if lowFailed as int - current <= MTU_SEARCH_STEP {
        done, probe := true, 0;
      } else {
        probe := (current + lowFailed) / 2;
      }
    }

    method HandleProbeAcked(size: nat)
      modifies this
      ensures Model() == OnProbeAcked(old(Model()), size)
    {
      inFlight := false;
      if retryAt.Some? { return; }
      if size > current { current := size; }
      tries := 0;
      Advance();
    }

    method HandleProbeLost(size: nat)
      modifies this
      ensures Model() == OnProbeLost(old(Model()), size)
    {
      inFlight := false;
      if retryAt.Some? { return; }
      tries := tries + 1;
      if tries < MTU_PROBE_TRIES { return; }
      tries := 0;
      if size < lowFailed { lowFailed := size; }
      Advance();
    }

    method HandleDataAcked(size: nat)
      modifies this
      ensures Model() == OnDataAcked(old(Model()), size)
    {
      if size > SAFE_DATAGRAM_SIZE { largeLost := 0; }
    }

    method HandleDataLost(size: nat, now: int)
      modifies this
      ensures Model() == OnDataLost(old(Model()), size, now)
    {
      if current <= SAFE_DATAGRAM_SIZE || size <= SAFE_DATAGRAM_SIZE { return; }
      largeLost := largeLost + 1;
      if largeLost >= BLACKHOLE_PACKETS { FallBack(now); }
    }

    method FallBack(now: int)
      modifies this
      ensures Model() == Blackhole(old(Model()), now)
    {
      if current <= SAFE_DATAGRAM_SIZE { return; }
      current, probe, done, inFlight := SAFE_DATAGRAM_SIZE, 0, true, false;
      largeLost, retryAt := 0, Some(now + BLACKHOLE_RETRY);
    }
  }
}
