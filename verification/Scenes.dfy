/** Small runs of two peers, event by event. */
module Scenes {
  import opened Frames
  import opened Sending
  import opened Custody
  import opened EndToEnd
  import AckTracker
  import Runs

  /** The stream of the examples: the code numbers streams from 1 on the side that dials. */
  const STREAM: nat := 1

  /** The timer, if it is set, is not due before `at`. */
  predicate NotBefore(timer: Option<int>, at: int) { timer.Some? ==> timer.value >= at }

  /** No timer of the connection is due before `at`. */
  predicate OnTime(c: Conn, at: int) {
    NotBefore(c.cc.ptoTimer, at) && NotBefore(c.pm.lossTimer, at) && NotBefore(c.lostTimer, at)
  }

  lemma NoEvent(w: World)
    ensures Run(w, []) == w
  {
    hide Possible, Apply;
  }

  lemma OneEvent(w: World, e: Event)
    requires Possible(w, e)
    ensures Run(w, [e]) == Apply(w, e)
  {
    hide Possible, Apply;
    assert [e][..0] == [];
    NoEvent(w);
  }

  lemma {:induction false} RunMore(w: World, a: seq<Event>, b: seq<Event>)
    ensures Run(w, a + b) == Run(Run(w, a), b)
    decreases |b|
  {
    hide Possible, Apply;
    if b == [] {
      assert a + b == a;
    } else {
      assert (a + b)[..|a + b| - 1] == a + b[..|b| - 1];
      RunMore(w, a, b[..|b| - 1]);
    }
  }

  /** The event, if the sender takes part in it, comes before any of its timers is due. */
  predicate Timely(w: World, e: Event) {
    && (e.Sender? ==> OnTime(w.snd, e.step.at))
    && (e.AckArrives? ==> OnTime(w.snd, e.at))
  }

  ghost predicate AllTimely(w: World, events: seq<Event>) {
    events == [] ||
    (var init, e := events[..|events| - 1], events[|events| - 1];
     AllTimely(w, init) && Timely(Run(w, init), e))
  }

  lemma {:induction false} TimelyMore(w: World, a: seq<Event>, b: seq<Event>)
    requires AllTimely(w, a) && AllTimely(Run(w, a), b)
    ensures AllTimely(w, a + b)
    decreases |b|
  {
    hide Run, Timely;
    if b == [] {
      assert a + b == a;
    } else {
      var init := b[..|b| - 1];
      assert (a + b)[..|a + b| - 1] == a + init;
      TimelyMore(w, a, init);
      RunMore(w, a, init);
    }
  }

  lemma OneTimely(w: World, e: Event)
    requires Timely(w, e)
    ensures AllTimely(w, [e])
  {
    hide Timely;
    assert [e][..0] == [];
    NoEvent(w);
    hide Run;
  }

  lemma TwoTimely(w: World, e: Event, e': Event)
    requires Possible(w, e) && Timely(w, e) && Timely(Apply(w, e), e')
    ensures AllTimely(w, [e, e'])
  {
    hide Timely, Possible, Apply;
    OneTimely(w, e);
    assert [e, e'][..1] == [e];
    OneEvent(w, e);
    hide Run;
  }

  lemma TwoEvents(w: World, e: Event, e': Event)
    requires Possible(w, e) && Possible(Apply(w, e), e')
    ensures Run(w, [e, e']) == Apply(Apply(w, e), e')
  {
    hide Possible, Apply, Run;
    RunMore(w, [e], [e']);
    assert [e] + [e'] == [e, e'];
    OneEvent(w, e);
    OneEvent(Apply(w, e), e');
  }

  /** The frame is one the receiver prints for what has arrived: exact, as far down as
      the tracker goes, and within the limits of its fields. */
  ghost predicate Printed(f: AckFrame, arrived: set<nat>) {
    AckTracker.ExactDownToLowest(f, arrived) && AckTracker.ReachesHistory(f, arrived) && AckTracker.Printable(f)
  }

  /** An ACK is printed and arrives. */
  lemma AckRound(w: World, f: AckFrame, at: int, target: int)
    requires Printed(f, w.arrived)
    ensures var w' := Run(w, [AckSent(f), AckArrives(f, at, target)]);
            w' == w.(acks := w.acks + {f}, snd := HandleAckFrame(w.snd, f, at, target))
  {
    hide HandleAckFrame, AckTracker.ExactDownToLowest;
    TwoEvents(w, AckSent(f), AckArrives(f, at, target));
  }

  /** What is tracked was put on the wire. */
  lemma WasSent(c: Conn, s: nat)
    requires Runs.Rest(c) && s in c.pm.sent
    ensures if c.pm.sent[s].probe then s in c.probes else s in c.wire
  {
    assert Entry(ViewOf(c), s);
  }
}
