/** The pointers under concurrency: every step of every thread leaves all rings well
    linked, with stolen buffers in transit between them. */
module BcacheLinks {
  import opened Rows
  import opened BufRings
  import opened Bcache
  import opened BcacheProtocol

  // next and prev of all buffers and, behind them, of the ring heads.
  datatype Links = Links(next: seq<nat>, prev: seq<nat>)

  // b's neighbours are made to point past it.
  function Unlinked(p: Links, b: nat): Links {
    if b < |p.next| == |p.prev| && p.prev[b] < |p.next| && p.next[b] < |p.next| then
      Links(p.next[p.prev[b] := p.next[b]], p.prev[p.next[b] := p.prev[b]])
    else p
  }

  // b is linked in behind head h.
  function LinkedIn(p: Links, h: nat, b: nat): Links {
    if h < |p.next| == |p.prev| && b < |p.next| && p.next[h] < |p.next| then
      Links(p.next[b := p.next[h]][h := b], p.prev[b := h][p.next[h] := b])
    else p
  }

  // The pointer writes of a step.
  ghost function Writes(s: State, t: nat, p: Links): Links
    requires Enabled(s, t)
  {
    var n, nbuf := |s.rings|, |s.bufs|;
    match s.pcs[t]
    case StealLook(_, blockno, i) =>
      var ring := s.rings[Probe(blockno, i, n)];
      var j := FirstIn(ring, Free(s.bufs));
      if j < |ring| then Unlinked(p, ring[j]) else p
    case MoveLink(b, blockno, _) => LinkedIn(p, nbuf + Home(blockno, n), b)
    case OpDo(op, b, k) =>
      if op.Relse? && Dec(s.bufs[b].refcnt) == 0 then LinkedIn(Unlinked(p, b), nbuf + k, b) else p
    case _ => p
  }

  datatype Pointed = Pointed(s: State, p: Links)

  ghost function Then(r: Pointed, t: nat, a: Action): Pointed
    requires Allowed(r.s, t, a)
  {
    Pointed(Next(r.s, t, a), if a.Step? then Writes(r.s, t, r.p) else r.p)
  }

  ghost predicate WellLinked(r: Pointed) {
    Linked(r.p.next, r.p.prev, |r.s.bufs|, r.s.rings)
  }

  lemma StealLinked(r: Pointed, t: nat)
    requires Inv(r.s) && WellLinked(r) && Enabled(r.s, t) && r.s.pcs[t].StealLook?
    ensures WellLinked(Pointed(Own(r.s, t), Writes(r.s, t, r.p)))
  {
    hide Inv, Linked, Partition, Probe, FirstIn, Free, Unlink, LocksOk, TransitOk, Accounted, Placed, PcsOk;
    var s := r.s;
    Has(s, t);
    Sizes(s, t);
    var k := Probe(s.pcs[t].blockno, s.pcs[t].i, |s.rings|);
    var j := FirstIn(s.rings[k], Free(s.bufs));
    if j < |s.rings[k]| {
      LinkedUnlink(r.p.next, r.p.prev, |s.bufs|, s.rings, s.transit, k, j);
      LinkedSizes(r.p, |s.bufs|, s.rings);
    }
  }

  lemma LinkedSizes(p: Links, nbuf: nat, rings: Rings)
    requires Linked(p.next, p.prev, nbuf, rings)
    ensures |p.next| == |p.prev| == nbuf + |rings|
  {
  }

  lemma LinkLinked(r: Pointed, t: nat)
    requires Inv(r.s) && WellLinked(r) && Enabled(r.s, t) && r.s.pcs[t].MoveLink?
    ensures WellLinked(Pointed(Own(r.s, t), Writes(r.s, t, r.p)))
  {
    hide Inv, Linked, Partition, Home, Push, LocksOk, Accounted, Placed, PcsOk;
    var s := r.s;
    Has(s, t);
    LinkedPush(r.p.next, r.p.prev, |s.bufs|, s.rings, s.transit, Home(s.pcs[t].blockno, |s.rings|), s.pcs[t].b);
    LinkedSizes(r.p, |s.bufs|, s.rings);
  }

  lemma RelinkLinked(p: Links, nbuf: nat, rings: Rings, transit: set<nat>, k: nat, i: nat)
    requires Linked(p.next, p.prev, nbuf, rings) && Partition(rings, nbuf, transit) && k < |rings| && i < |rings[k]|
    ensures var q := LinkedIn(Unlinked(p, rings[k][i]), nbuf + k, rings[k][i]);
            Linked(q.next, q.prev, nbuf, Move(rings, k, i, k))
  {
    hide Linked, Partition;
    var b := rings[k][i];
    LinkedUnlink(p.next, p.prev, nbuf, rings, transit, k, i);
    LinkedSizes(p, nbuf, rings);
    UnlinkPartition(rings, nbuf, transit, k, i);
    var q := Unlinked(p, b);
    IsBuffer(rings, nbuf, transit, k, i);
    LinkedPush(q.next, q.prev, nbuf, Unlink(rings, k, i), transit + {b}, k, b);
    LinkedSizes(q, nbuf, Unlink(rings, k, i));
  }

  lemma IsBuffer(rings: Rings, nbuf: nat, transit: set<nat>, k: nat, i: nat)
    requires Partition(rings, nbuf, transit) && k < |rings| && i < |rings[k]|
    ensures rings[k][i] < nbuf
  {
    assert OnlyBuffers(rings[k], nbuf, transit) && rings[k][i] in rings[k];
  }

  lemma OpLinked(r: Pointed, t: nat)
    requires Inv(r.s) && WellLinked(r) && Enabled(r.s, t) && r.s.pcs[t].OpDo?
    ensures WellLinked(Pointed(Own(r.s, t), Writes(r.s, t, r.p)))
  {
    hide Inv, Linked, Partition, Home, Move, LocksOk, TransitOk, Accounted, Placed, PcsOk, Unlinked, LinkedIn, Inc, Dec;
    var s := r.s;
    Has(s, t);
    var k, b := s.pcs[t].k, s.pcs[t].b;
    RelinkLinked(r.p, |s.bufs|, s.rings, s.transit, k, PosOf(s.rings[k], b));
  }

  // Whatever any thread does leaves all rings well linked.
  lemma NextLinked(r: Pointed, t: nat, a: Action)
    requires Inv(r.s) && WellLinked(r) && Allowed(r.s, t, a)
    ensures Inv(Then(r, t, a).s) && WellLinked(Then(r, t, a))
  {
    hide Inv, Linked, Enabled, Room, Own, Writes;
    NextInv(r.s, t, a);
    if a.Step? {
      Kinds(r.s, t);
      var pc := r.s.pcs[t];
      if pc.StealLook? {
        StealLinked(r, t);
      } else if pc.MoveLink? {
        LinkLinked(r, t);
      } else if pc.OpDo? {
        OpLinked(r, t);
      } else {
        NoWrites(r, t);
      }
    }
  }

  lemma NoWrites(r: Pointed, t: nat)
    requires Inv(r.s) && Enabled(r.s, t) && !r.s.pcs[t].StealLook? && !Changes(r.s.pcs[t])
    ensures Own(r.s, t).rings == r.s.rings && |Own(r.s, t).bufs| == |r.s.bufs| && Writes(r.s, t, r.p) == r.p
  {
    hide Inv, Home, Probe, FirstIn, LastIn, Free, Matching, Inc, Dec;
    Sizes(r.s, t);
  }

  /* Runs. */

  // The heads point at themselves, and then binit links in the first i buffers.
  function InitLinks(i: nat, nbuf: nat, n: nat): Links
    requires n > 0
  {
    if i == 0 then Links(seq(nbuf + n, x => x), seq(nbuf + n, x => x))
    else LinkedIn(InitLinks(i - 1, nbuf, n), nbuf + (i - 1) % n, i - 1)
  }

  lemma {:induction false} InitLinked(i: nat, nbuf: nat, n: nat)
    requires i <= nbuf && 0 < n
    ensures var p := InitLinks(i, nbuf, n);
            Linked(p.next, p.prev, nbuf, InitRings(i, n)) && Partition(InitRings(i, n), nbuf, From(i, nbuf))
  {
    hide Linked, Partition;
    if i == 0 {
      EmptyLinked(nbuf, n);
    } else {
      InitLinked(i - 1, nbuf, n);
      var q, rings := InitLinks(i - 1, nbuf, n), InitRings(i - 1, n);
      LinkedPush(q.next, q.prev, nbuf, rings, From(i - 1, nbuf), (i - 1) % n, i - 1);
      LinkedSizes(q, nbuf, rings);
      PushPartition(rings, nbuf, From(i - 1, nbuf), (i - 1) % n, i - 1);
      assert From(i - 1, nbuf) - {i - 1} == From(i, nbuf);
    }
  }

  lemma EmptyLinked(nbuf: nat, n: nat)
    requires 0 < n
    ensures var p := InitLinks(0, nbuf, n);
            Linked(p.next, p.prev, nbuf, InitRings(0, n)) && Partition(InitRings(0, n), nbuf, From(0, nbuf))
  {
  }

  ghost predicate Follows(q: Pointed, r: Pointed) {
    exists t, a :: Allowed(q.s, t, a) && r == Then(q, t, a)
  }

  ghost predicate ReachedPointed(r: Pointed, nbuf: nat, n: nat, threads: nat, steps: nat)
    requires 0 < n
    decreases steps
  {
    if steps == 0 then r == Pointed(Init(nbuf, n, threads), InitLinks(nbuf, nbuf, n))
    else exists q :: ReachedPointed(q, nbuf, n, threads, steps - 1) && Follows(q, r)
  }

  lemma FollowsLinked(q: Pointed, r: Pointed)
    requires Inv(q.s) && WellLinked(q) && Follows(q, r)
    ensures Inv(r.s) && WellLinked(r)
  {
    hide Inv, Allowed, Then, WellLinked;
    var t, a :| Allowed(q.s, t, a) && r == Then(q, t, a);
    NextLinked(q, t, a);
  }

  // In every state of every interleaving all rings are closed at their heads, with
  // next and prev inverse.
  lemma {:induction false} RunLinked(r: Pointed, nbuf: nat, n: nat, threads: nat, steps: nat)
    requires 0 < n < 0x8000_0000 && ReachedPointed(r, nbuf, n, threads, steps)
    ensures Inv(r.s) && WellLinked(r)
    decreases steps
  {
    hide Follows, Inv, InitRings, InitLinks, Linked;
    if steps == 0 {
      InitInv(nbuf, n, threads);
      InitLinked(nbuf, nbuf, n);
    } else {
      var q :| ReachedPointed(q, nbuf, n, threads, steps - 1) && Follows(q, r);
      RunLinked(q, nbuf, n, threads, steps - 1);
      FollowsLinked(q, r);
    }
  }
}
