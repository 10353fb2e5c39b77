/** The order of the rings under concurrency: each is in the order in which its
    buffers were last put in front, so that bget recycles the oldest. */
module BcacheOrder {
  import opened Rows
  import opened BufRings
  import opened Bcache
  import opened BcacheProtocol
  import Runs = BcacheRuns

  // `stamp` is the time a buffer was last linked in at a front.
  datatype Timed = Timed(s: State, stamp: seq<nat>, clock: nat)

  // The step of t links its buffer in at a front: the end of a steal, and the
  // brelse that gives back the last reference.
  ghost predicate Fronts(s: State, t: nat)
    requires Enabled(s, t)
  {
    || s.pcs[t].MoveLink?
    || (s.pcs[t].OpDo? && s.pcs[t].op.Relse? && Dec(s.bufs[s.pcs[t].b].refcnt) == 0)
  }

  ghost function Then(r: Timed, t: nat, a: Action): Timed
    requires Allowed(r.s, t, a) && |r.stamp| == |r.s.bufs|
  {
    if a.Step? && Fronts(r.s, t) then
      Timed(Next(r.s, t, a), r.stamp[r.s.pcs[t].b := r.clock + 1], r.clock + 1)
    else r.(s := Next(r.s, t, a))
  }

  ghost predicate Ordered(r: Timed) {
    && |r.stamp| == |r.s.bufs|
    && forall k | 0 <= k < |r.s.rings| :: Runs.Newer(r.s.rings[k], r.stamp, r.clock)
  }

  lemma NewerOther(ring: seq<nat>, stamp: seq<nat>, clock: nat, b: nat, v: nat)
    requires Runs.Newer(ring, stamp, clock) && b !in ring && b < |stamp|
    ensures Runs.Newer(ring, stamp[b := v], clock)
  {
  }

  lemma LinkOrdered(r: Timed, t: nat)
    requires Inv(r.s) && Ordered(r) && Enabled(r.s, t) && r.s.pcs[t].MoveLink?
    ensures Ordered(Then(r, t, Step))
  {
    hide Inv, Partition, LocksOk, TransitOk, Accounted, Placed, PcsOk, Home, Probe, Runs.Newer;
    var s := r.s;
    Has(s, t);
    var b, stamp' := s.pcs[t].b, r.stamp[s.pcs[t].b := r.clock + 1];
    Carries(s, t);
    forall k | 0 <= k < |s.rings|
      ensures Runs.Newer(s.rings[k], stamp', r.clock)
    {
      NewerOther(s.rings[k], r.stamp, r.clock, b, r.clock + 1);
    }
    var home := Home(s.pcs[t].blockno, |s.rings|);
    Runs.NewerPush(s.rings[home], stamp', r.clock, b);
    forall k | 0 <= k < |s.rings|
      ensures Runs.Newer(s.rings[k], stamp', r.clock + 1)
    {
      Later(s.rings[k], stamp', r.clock);
    }
  }

  lemma Later(ring: seq<nat>, stamp: seq<nat>, clock: nat)
    requires Runs.Newer(ring, stamp, clock)
    ensures Runs.Newer(ring, stamp, clock + 1)
  {
  }

  lemma Carries(s: State, t: nat)
    requires Inv(s) && t < |s.pcs| && Moving(s.pcs[t])
    ensures s.pcs[t].b < |s.bufs| && forall k | 0 <= k < |s.rings| :: s.pcs[t].b !in s.rings[k]
  {
  }

  lemma RelseOrdered(r: Timed, t: nat)
    requires Inv(r.s) && Ordered(r) && Enabled(r.s, t) && r.s.pcs[t].OpDo? && Fronts(r.s, t)
    ensures Ordered(Then(r, t, Step))
  {
    hide Inv, Partition, LocksOk, TransitOk, Accounted, Placed, PcsOk, Home, Probe, Move, Dec, Runs.Newer;
    var s := r.s;
    Has(s, t);
    Sizes(s, t);
    var k, b := s.pcs[t].k, s.pcs[t].b;
    Runs.MoveOrder(s.rings, |s.bufs|, s.transit, r.stamp, r.clock, k, PosOf(s.rings[k], b), k);
  }

  // A steal takes a buffer off a ring; the other steps change none.
  lemma QuietOrdered(r: Timed, t: nat)
    requires Inv(r.s) && Ordered(r) && Enabled(r.s, t) && !Fronts(r.s, t)
    ensures Ordered(r.(s := Own(r.s, t)))
  {
    hide Inv, Home, Probe, Move, Inc, Dec, PosOf, FirstIn, LastIn, Free, Matching, Runs.Newer;
    var s := r.s;
    Sizes(s, t);
    if s.pcs[t].StealLook? {
      var k := Probe(s.pcs[t].blockno, s.pcs[t].i, |s.rings|);
      var j := FirstIn(s.rings[k], Free(s.bufs));
      if j < |s.rings[k]| {
        Runs.NewerWithout(s.rings[k], r.stamp, r.clock, j);
      }
    }
  }

  // Every step of every thread keeps the order.
  lemma NextOrdered(r: Timed, t: nat, a: Action)
    requires Inv(r.s) && Ordered(r) && Allowed(r.s, t, a)
    ensures Inv(Then(r, t, a).s) && Ordered(Then(r, t, a))
  {
    hide Inv, Enabled, Own, Room;
    NextInv(r.s, t, a);
    if a.Step? {
      Kinds(r.s, t);
      if Fronts(r.s, t) {
        if r.s.pcs[t].MoveLink? { LinkOrdered(r, t); } else { RelseOrdered(r, t); }
      } else {
        QuietOrdered(r, t);
      }
    }
  }

  // The buffer a bget recycles on its own ring is the unreferenced one that was
  // last in front longest ago.
  lemma LooksUpOldest(r: Timed, t: nat, b: nat)
    requires Inv(r.s) && Ordered(r) && Enabled(r.s, t) && r.s.pcs[t].GetLook?
    requires var pc := r.s.pcs[t];
             var ring := r.s.rings[Home(pc.blockno, |r.s.rings|)];
             && FirstIn(ring, Matching(r.s.bufs, pc.dev, pc.blockno)) == |ring|
             && b in ring && b < |r.s.bufs| && r.s.bufs[b].refcnt == 0
    ensures Own(r.s, t).pcs[t].GetDone?
    ensures var c := Own(r.s, t).pcs[t].b;
            && c < |r.s.bufs| && r.s.bufs[c].refcnt == 0 && r.stamp[c] <= r.stamp[b]
            && KeyOf(Own(r.s, t).bufs[c]) == Key(r.s.pcs[t].dev, r.s.pcs[t].blockno)
  {
    hide Inv, Home, Partition, LocksOk, TransitOk, Accounted, Placed, PcsOk;
    var pc := r.s.pcs[t];
    var ring := r.s.rings[Home(pc.blockno, |r.s.rings|)];
    assert b in Free(r.s.bufs);
    assert Runs.Newer(ring, r.stamp, r.clock);
    var j := LastIn(ring, Free(r.s.bufs));
    IsFree(r.s.bufs, ring[j]);
    var i :| 0 <= i < |ring| && ring[i] == b;
  }

  /* Runs. */

  ghost predicate Follows(q: Timed, r: Timed) {
    |q.stamp| == |q.s.bufs| && exists t, a :: Allowed(q.s, t, a) && r == Then(q, t, a)
  }

  ghost predicate ReachedTimed(r: Timed, nbuf: nat, n: nat, threads: nat, steps: nat)
    requires 0 < n
    decreases steps
  {
    if steps == 0 then r == Timed(Init(nbuf, n, threads), seq(nbuf, i => i + 1), nbuf)
    else exists q :: ReachedTimed(q, nbuf, n, threads, steps - 1) && Follows(q, r)
  }

  lemma FollowsOrdered(q: Timed, r: Timed)
    requires Inv(q.s) && Ordered(q) && Follows(q, r)
    ensures Inv(r.s) && Ordered(r)
  {
    hide Inv, Allowed, Then;
    var t, a :| Allowed(q.s, t, a) && r == Then(q, t, a);
    NextOrdered(q, t, a);
  }

  lemma {:induction false} RunOrdered(r: Timed, nbuf: nat, n: nat, threads: nat, steps: nat)
    requires 0 < n < 0x8000_0000 && ReachedTimed(r, nbuf, n, threads, steps)
    ensures Inv(r.s) && Ordered(r)
    decreases steps
  {
    hide Follows, Inv, InitRings;
    if steps == 0 {
      InitInv(nbuf, n, threads);
      Runs.InitRingsOk(nbuf, nbuf, n);
    } else {
      var q :| ReachedTimed(q, nbuf, n, threads, steps - 1) && Follows(q, r);
      RunOrdered(q, nbuf, n, threads, steps - 1);
      FollowsOrdered(q, r);
    }
  }
}
