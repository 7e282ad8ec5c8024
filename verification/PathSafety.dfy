/** The size found for the path, between two peers: streams are never given more than the
    network has delivered. */
module PathSafety {
  import opened Frames
  import opened Packets
  import opened Sending
  import opened Custody
  import opened Spans
  import opened EndToEnd
  import opened Unmoved
  import AckTracker
  import Runs
  import Streams

  /** The event is no arrival of a datagram larger than `path`. */
  ghost predicate Carried(w: World, e: Event, path: nat) {
    && (e.DataArrives? && e.sequence in w.snd.wire ==> PacketSize(w.snd, w.snd.wire[e.sequence].frame) <= path)
    && (e.ProbeArrives? && e.sequence in w.snd.probes ==> w.snd.probes[e.sequence] <= path)
  }

  /** The probes that have arrived, and the size found, are within the path. */
  ghost predicate WithinPath(w: World, path: nat) {
    && w.snd.mtu.current <= path
    && forall s <- w.arrived :: s in w.snd.probes ==> w.snd.probes[s] <= path
  }

  /** An ACK was printed from arrivals, so the probes it names have arrived. */
  lemma AckNamesArrived(w: World, f: AckFrame, path: nat)
    requires TrackedOk(ViewOf(w.snd)) && AckOk(w.arrived, f) && WithinPath(w, path)
    ensures NamesWithin(w.snd, f, path)
  {
    hide Expand;
    forall s | s in w.snd.pm.sent && w.snd.pm.sent[s].probe && s in Expand(f) ensures w.snd.pm.sent[s].size <= path {
      assert Entry(ViewOf(w.snd), s);
      assert s in w.arrived;
    }
  }

  /** What went out stays what it was. */
  lemma ArrivedStays(w: World, c': Conn, path: nat)
    requires SenderOk(w) && WireOk(ViewOf(c')) && Grows(ViewOf(w.snd), ViewOf(c'))
    requires WithinPath(w, path) && c'.mtu.current <= path
    ensures WithinPath(w.(snd := c'), path)
  {
    hide Runs.Rest, Runs.Informed, SpansOk, FrameOk;
    forall s | s in w.arrived && s in c'.probes ensures c'.probes[s] <= path {
      assert s in w.snd.wire || s in w.snd.probes;
    }
  }

  lemma SenderWithin(w: World, step: Runs.Step, path: nat)
    requires WorldOk(w) && WithinPath(w, path) && SAFE_DATAGRAM_SIZE <= path
    requires Runs.Possible(w.snd, step) && (step.Acks? ==> step.frame in w.acks)
    ensures WithinPath(w.(snd := Runs.Apply(w.snd, step)), path)
  {
    hide *;
    WorldParts(w);
    SizeWithin(w, path);
    Runs.StepRests(w.snd, step);
    RestWire(Runs.Apply(w.snd, step));
    if step.Acks? {
      AckHonest(w, step.frame);
      AckNamesArrived(w, step.frame, path);
    }
    StepRaises(w.snd, step, path);
    ArrivedStays(w, Runs.Apply(w.snd, step), path);
  }

  lemma SizeWithin(w: World, path: nat)
    requires WithinPath(w, path)
    ensures w.snd.mtu.current <= path
  {
  }

  lemma DataWithin(w: World, x: nat, path: nat)
    requires WorldOk(w) && WithinPath(w, path) && x in w.snd.wire
    ensures WithinPath(w.(arrived := w.arrived + {x}), path)
  {
    WorldParts(w);
    RestWire(w.snd);
    NotAProbe(w.snd, x);
    hide WorldOk, WireOk, TrackedOk, InCustody, SenderOk;
  }

  lemma NotAProbe(c: Conn, x: nat)
    requires WireOk(ViewOf(c)) && x in c.wire
    ensures x !in c.probes
  {
    hide SpansOk, FrameOk;
  }

  lemma SameSide(w: World, w': World, path: nat)
    requires WithinPath(w, path) && w'.snd == w.snd && w'.arrived == w.arrived
    ensures WithinPath(w', path)
  {
  }

  lemma EventWithin(w: World, e: Event, path: nat)
    requires WorldOk(w) && WithinPath(w, path) && SAFE_DATAGRAM_SIZE <= path
    requires Possible(w, e) && Carried(w, e, path)
    ensures WithinPath(Apply(w, e), path)
  {
    hide WorldOk, Runs.Apply, HandleAckFrame, Delivered, Streams.Read, Streams.Close, AckTracker.ExactDownToLowest;
    hide Runs.Possible;
    match e
    case Sender(step) => SenderWithin(w, step, path);
    case AckArrives(f, now, target) =>
      AckIsAStep(w.snd, f, now, target);
      SenderWithin(w, Runs.Acks(f, now, target), path);
    case DataArrives(s) =>
      DataWithin(w, s, path);
      SameSide(w.(arrived := w.arrived + {s}), Apply(w, e), path);
    case ProbeArrives(s) =>
    case _ => SameSide(w, Apply(w, e), path);
  }

  /** No event of the run is the arrival of a datagram larger than `path`. */
  ghost predicate AllCarried(w: World, events: seq<Event>, path: nat) {
    forall i :: 0 <= i < |events| ==> Carried(Run(w, events[..i]), events[i], path)
  }

  lemma FewerCarried(w: World, events: seq<Event>, path: nat)
    requires events != [] && AllCarried(w, events, path)
    ensures var n := |events| - 1;
            AllCarried(w, events[..n], path) && Carried(Run(w, events[..n]), events[n], path)
  {
    var n := |events| - 1;
    hide Run, Carried;
    forall i | 0 <= i < n ensures Carried(Run(w, events[..n][..i]), events[..n][i], path) {
      assert events[..n][..i] == events[..i];
    }
  }

  lemma {:induction false} RunWithin(w: World, events: seq<Event>, path: nat)
    requires WorldOk(w) && WithinPath(w, path) && SAFE_DATAGRAM_SIZE <= path && AllCarried(w, events, path)
    ensures WithinPath(Run(w, events), path)
  {
    if events == [] {
      hide WithinPath, WorldOk;
    } else {
      var n := |events| - 1;
      var w1, e := Run(w, events[..n]), events[n];
      assert Run(w, events) == if Possible(w1, e) then Apply(w1, e) else w1 by { hide Possible, Apply; }
      hide *;
      FewerCarried(w, events, path);
      RunOk(w, events[..n]);
      RunWithin(w, events[..n], path);
      if Possible(w1, e) { EventWithin(w1, e, path); }
    }
  }

  /** In every run in which no datagram of more than `path` bytes arrives, and `path` is at
      least the safe size, streams are never given a larger size: not by a late ACK for a
      probe after the size fell back, and not by any search that follows. */
  lemma NeverAboveTheCarried(hdr: nat, events: seq<Event>, path: nat)
    requires Headers(hdr) && SAFE_DATAGRAM_SIZE <= path
    requires forall i :: 0 <= i < |events| ==> Carried(Run(Start(hdr), events[..i]), events[i], path)
    ensures Run(Start(hdr), events).snd.mtu.current <= path
  {
    hide Run, WorldOk, Carried;
    StartOk(hdr);
    RunWithin(Start(hdr), events, path);
  }
}
