/** Which packet answers for which bytes, and what has ever been on the wire. A packet
    re-chunked to fit the path is replaced by its pieces, so the spans ever sent form a
    family in which any two are disjoint or nested. */
module Spans {
  import opened Frames
  import opened Sending

  predicate Overlap(a: Span, b: Span) {
    a.stream == b.stream && a.lo < a.hi && b.lo < b.hi && a.lo < b.hi && b.lo < a.hi
  }

  predicate Inside(a: Span, b: Span) {
    a.stream == b.stream && b.lo <= a.lo && a.hi <= b.hi
  }

  /** Two records never answer for the same byte. */
  ghost predicate Separate(cs: map<nat, Span>, q: nat, r: nat)
    requires q in cs && r in cs
  {
    q != r ==> !Overlap(cs[q], cs[r])
  }

  /** Whatever was ever sent over a record's bytes carried all of them, and the record
      itself was only ever sent whole. */
  ghost predicate Whole(cs: map<nat, Span>, wire: map<nat, Datagram>, r: nat, s: nat)
    requires r in cs && s in wire
  {
    && (Overlap(cs[r], wire[s].Bytes()) ==> Inside(cs[r], wire[s].Bytes()))
    && (wire[s].ref == r ==> wire[s].Bytes() == cs[r])
  }

  ghost predicate Nested(wire: map<nat, Datagram>, s: nat, t: nat)
    requires s in wire && t in wire
  {
    var a, b := wire[s].Bytes(), wire[t].Bytes();
    Overlap(a, b) ==> Inside(a, b) || Inside(b, a)
  }

  ghost predicate SpansOk(cs: map<nat, Span>, wire: map<nat, Datagram>) {
    && (forall q, r {:trigger Separate(cs, q, r)} :: q in cs && r in cs ==> Separate(cs, q, r))
    && (forall r, s {:trigger Whole(cs, wire, r, s)} :: r in cs && s in wire ==> Whole(cs, wire, r, s))
    && (forall s, t {:trigger Nested(wire, s, t)} :: s in wire && t in wire ==> Nested(wire, s, t))
  }

  /** A new record over bytes nothing was sent for. */
  lemma AddSpan(cs: map<nat, Span>, wire: map<nat, Datagram>, r: nat, a: Span)
    requires SpansOk(cs, wire) && r !in cs
    requires forall q <- cs :: !Overlap(cs[q], a)
    requires forall s <- wire :: !Overlap(a, wire[s].Bytes()) && wire[s].ref != r
    ensures SpansOk(cs[r := a], wire)
  {
    var cs' := cs[r := a];
    forall p, q | p in cs' && q in cs' ensures Separate(cs', p, q) {
      if p in cs && q in cs { assert Separate(cs, p, q); }
    }
    forall q, s | q in cs' && s in wire ensures Whole(cs', wire, q, s) {
      if q in cs { assert Whole(cs, wire, q, s); }
    }
  }

  /** A record goes out, whole, under a fresh sequence. */
  lemma SendSpan(cs: map<nat, Span>, wire: map<nat, Datagram>, s: nat, d: Datagram)
    requires SpansOk(cs, wire) && s !in wire && d.ref in cs && d.Bytes() == cs[d.ref]
    ensures SpansOk(cs, wire[s := d])
  {
    var wire' := wire[s := d];
    forall r, t | r in cs && t in wire' ensures Whole(cs, wire', r, t) {
      if t == s { assert Separate(cs, r, d.ref); } else { assert Whole(cs, wire, r, t); }
    }
    forall t, u | t in wire' && u in wire' ensures Nested(wire', t, u) {
      if t != s && u != s { assert Nested(wire, t, u); }
      else if t != s { assert Whole(cs, wire, d.ref, t); }
      else if u != s { assert Whole(cs, wire, d.ref, u); }
    }
  }

  /** Pieces take over a record's bytes. */
  lemma SplitSpan(cs: map<nat, Span>, wire: map<nat, Datagram>, r: nat, pieces: map<nat, Span>)
    requires SpansOk(cs, wire) && r in cs && pieces.Keys !! cs.Keys
    requires forall k <- pieces :: Inside(pieces[k], cs[r])
    requires forall j, k {:trigger Separate(pieces, j, k)} :: j in pieces && k in pieces ==> Separate(pieces, j, k)
    requires forall s <- wire :: wire[s].ref !in pieces
    ensures SpansOk(cs - {r} + pieces, wire)
  {
    var cs' := cs - {r} + pieces;
    forall p, q | p in cs' && q in cs' ensures Separate(cs', p, q) {
      if p in pieces && q in pieces { assert Separate(pieces, p, q); }
      else { assert Separate(cs, if p in pieces then r else p, if q in pieces then r else q); }
    }
    forall q, s | q in cs' && s in wire ensures Whole(cs', wire, q, s) {
      assert Whole(cs, wire, if q in pieces then r else q, s);
    }
  }

  /** Byte `b` of the stream is some record's. */
  ghost predicate Covered(cs: map<nat, Span>, stream: nat, b: nat) {
    exists r :: r in cs && cs[r].stream == stream && cs[r].lo <= b < cs[r].hi
  }
}
