/** The end of a stream, over whole runs of two peers. A FIN is acknowledged whatever
    becomes of it, but it is recorded only if its stream exists on arrival or the frame
    itself opens it. This module says exactly when the receiver knows of the end, and
    when its reader is told. */
module StreamEnd {
  import opened Frames
  import opened Sending
  import opened EndToEnd
  import AckTracker
  import Runs
  import Streams

  /** The receiver has recorded a FIN for the stream. */
  predicate FinSeen(w: World, stream: nat) { stream in w.streams && w.streams[stream].finSeen }

  /** The event is the arrival of a FIN of the stream, which exists or is opened by it. */
  ghost predicate RecordsFin(w: World, e: Event, stream: nat) {
    && e.DataArrives? && Possible(w, e)
    && var d := w.snd.wire[e.sequence];
       d.stream == stream && d.frame.isFin && (stream in w.streams || d.frame.isSyn || d.frame.data != [])
  }

  lemma EventRecords(w: World, e: Event, stream: nat)
    requires Possible(w, e)
    ensures FinSeen(Apply(w, e), stream) <==> FinSeen(w, stream) || RecordsFin(w, e, stream)
  {
    if e.DataArrives? {
      var d := w.snd.wire[e.sequence];
      if Target(w.streams, d).Some? { FinRecorded(Target(w.streams, d).value, d.frame); }
    }
    hide Streams.DeliverFrame, Runs.Apply, HandleAckFrame, AckTracker.ExactDownToLowest;
  }

  /** Some event of the run recorded a FIN. */
  ghost predicate Recorded(w: World, events: seq<Event>, stream: nat) {
    exists i :: 0 <= i < |events| && RecordsFin(Run(w, events[..i]), events[i], stream)
  }

  lemma RecordedLast(w: World, events: seq<Event>, stream: nat)
    requires events != []
    ensures var n := |events| - 1;
            Recorded(w, events, stream) <==>
            Recorded(w, events[..n], stream) || RecordsFin(Run(w, events[..n]), events[n], stream)
  {
    var n := |events| - 1;
    hide RecordsFin, Run;
    if i :| 0 <= i < |events| && RecordsFin(Run(w, events[..i]), events[i], stream) {
      if i < n { assert events[..n][..i] == events[..i] && events[..n][i] == events[i]; }
    }
    if i :| 0 <= i < n && RecordsFin(Run(w, events[..n][..i]), events[..n][i], stream) {
      assert events[..n][..i] == events[..i] && events[..n][i] == events[i];
    }
  }

  lemma {:induction false} RunRecords(w: World, events: seq<Event>, stream: nat)
    ensures FinSeen(Run(w, events), stream) <==> FinSeen(w, stream) || Recorded(w, events, stream)
  {
    if events != [] {
      var n := |events| - 1;
      var w1, e := Run(w, events[..n]), events[n];
      assert Run(w, events) == if Possible(w1, e) then Apply(w1, e) else w1 by { hide Possible, Apply; }
      assert RecordsFin(w1, e, stream) ==> Possible(w1, e) by { hide Possible; }
      hide *;
      RunRecords(w, events[..n], stream);
      RecordedLast(w, events, stream);
      if Possible(w1, e) { EventRecords(w1, e, stream); }
    }
  }

  /** In every run, the receiver knows that a stream ends exactly when some FIN of it
      arrived while the stream existed, or opened it. */
  lemma FinSeenExactly(hdr: nat, events: seq<Event>, stream: nat)
    ensures FinSeen(Run(Start(hdr), events), stream) <==>
            exists i :: 0 <= i < |events| && RecordsFin(Run(Start(hdr), events[..i]), events[i], stream)
  {
    hide Run, RecordsFin;
    RunRecords(Start(hdr), events, stream);
  }

  /** Once nothing is outstanding, and unless the backstop was hit, the stream counts as
      finished exactly when a FIN was recorded; a reader who has taken everything is told
      of the end exactly then, and waits otherwise. */
  lemma EndExactlyWithFin(hdr: nat, events: seq<Event>, stream: nat, max: nat)
    requires Headers(hdr) && !Runs.Outstanding(Run(Start(hdr), events).snd)
    requires Written(Run(Start(hdr), events).snd, stream) != []
    ensures var w := Run(Start(hdr), events);
            && stream in w.streams
            && var s := w.streams[stream];
               !s.violation ==>
                 && (s.finReceived <==> s.finSeen)
                 && (s.buf == [] ==>
                       && ReadOn(w, stream) == Written(w.snd, stream)
                       && Streams.Read(s, max).1 == if s.finSeen then Streams.Eof else Streams.MustWait)
  {
    hide *;
    var w := Run(Start(hdr), events);
    AllDeliveredWhenIdle(hdr, events, stream);
    Reachable(hdr, events);
    StreamAt(w, stream);
    if !w.streams[stream].violation { AtTheEnd(w.snd, ReadOn(w, stream), stream, w.streams[stream], max); }
  }

  lemma AtTheEnd(c: Conn, read: seq<byte>, stream: nat, s: Streams.Inbound, max: nat)
    requires StreamOk(c, read, stream, s) && !s.violation && s.offset == |Written(c, stream)|
    ensures s.finReceived <==> s.finSeen
    ensures s.buf == [] ==>
            && read == Written(c, stream)
            && Streams.Read(s, max).1 == if s.finSeen then Streams.Eof else Streams.MustWait
  {
    hide Streams.Tidy, Streams.Drained, AllFromWire, Streams.Accounted;
    var all := Written(c, stream);
    assert all[..|all|] == all && read + [] == read;
  }
}
