/** An operation of the buffer cache run to its end while the other threads stand
    still: what its steps come to. */
module BcacheAlone {
  import opened Rows
  import opened BufRings
  import opened Bcache
  import Atomic = Bcache
  import opened BcacheProbe
  import opened BcacheProtocol
  import BcacheRuns

  // A configuration: so many buffers, buckets and threads.
  datatype Setup = Setup(nbuf: nat, n: nat, threads: nat)

  ghost predicate ReachedIn(s: State, u: Setup, steps: nat) {
    0 < u.n && Reached(s, u.nbuf, u.n, u.threads, steps)
  }

  lemma AtStart(u: Setup)
    requires 0 < u.n
    ensures ReachedIn(Init(u.nbuf, u.n, u.threads), u, 0)
  {
  }

  lemma OneMore(s: State, u: Setup, steps: nat, t: nat, a: Action)
    requires ReachedIn(s, u, steps) && Allowed(s, t, a)
    ensures ReachedIn(Next(s, t, a), u, steps + 1)
  {
    assert Follows(s, Next(s, t, a));
  }

  // No count is near 2^32.
  ghost predicate LowCounts(s: State) {
    forall b: nat | b < |s.bufs| :: s.bufs[b].refcnt < TWO32 - 1
  }

  lemma LowRoom(s: State, t: nat)
    requires LowCounts(s) && Enabled(s, t)
    ensures Room(s, t)
  {
  }

  lemma StepOn(s: State, u: Setup, steps: nat, t: nat)
    requires ReachedIn(s, u, steps) && LowCounts(s) && Enabled(s, t)
    ensures ReachedIn(Own(s, t), u, steps + 1)
  {
    LowRoom(s, t);
    OneMore(s, u, steps, t, Step);
    hide Own, Enabled, ReachedIn, Room, LowCounts;
  }

  // A state whose rings hold buffers, with low counts, reached so.
  ghost predicate Going(s: State, u: Setup, steps: nat) {
    && ReachedIn(s, u, steps) && LowCounts(s) && Sized(s)
    && forall k, b | 0 <= k < |s.rings| && b in s.rings[k] :: b < |s.bufs|
  }

  /* Parts of a bget. */

  // Nothing on ring k has the block, or is free.
  ghost predicate NoMatch(s: State, k: nat, dev: U32, blockno: U32)
    requires k < |s.rings|
  {
    forall b | b in s.rings[k] :: b !in Matching(s.bufs, dev, blockno)
  }

  ghost predicate NoFree(s: State, k: nat)
    requires k < |s.rings|
  {
    forall b | b in s.rings[k] :: b !in Free(s.bufs)
  }

  lemma SearchFails(ring: seq<nat>, x: set<nat>)
    requires forall b | b in ring :: b !in x
    ensures FirstIn(ring, x) == |ring| && LastIn(ring, x) == -1
  {
  }

  // A search of the own ring that finds neither the block nor a free buffer.
  lemma MissesOwn(s: State, u: Setup, steps: nat, t: nat, dev: U32, blockno: U32)
    requires Going(s, u, steps) && t < |s.pcs| && s.pcs[t] == GetWait(dev, blockno)
    requires var home := Home(blockno, |s.rings|);
             s.lock[home] == Nobody && NoMatch(s, home, dev, blockno) && NoFree(s, home)
    ensures Going(At(s, t, if 1 < |s.rings| then StealWait(dev, blockno, 1) else Halted), u, steps + 3)
  {
    hide ReachedIn, Home, FirstIn, LastIn;
    var home := Home(blockno, |s.rings|);
    SearchFails(s.rings[home], Matching(s.bufs, dev, blockno));
    SearchFails(s.rings[home], Free(s.bufs));
    StepOn(s, u, steps, t);
    var s1 := Own(s, t);
    StepOn(s1, u, steps + 1, t);
    var s2 := Own(s1, t);
    assert s2 == s.(lock := s.lock[home := By(t)], pcs := s.pcs[t := GetMiss(dev, blockno)]);
    StepOn(s2, u, steps + 2, t);
    assert s.lock[home := By(t)][home := Nobody] == s.lock;
    assert Own(s2, t) == At(s, t, if 1 < |s.rings| then StealWait(dev, blockno, 1) else Halted);
  }

  // A probe that finds no free buffer.
  lemma ProbeMisses(s: State, u: Setup, steps: nat, t: nat, dev: U32, blockno: U32, i: nat)
    requires Going(s, u, steps) && t < |s.pcs| && s.pcs[t] == StealWait(dev, blockno, i) && i < |s.rings|
    requires var k := Probe(blockno, i, |s.rings|); s.lock[k] == Nobody && NoFree(s, k)
    ensures Going(At(s, t, if i + 1 < |s.rings| then StealWait(dev, blockno, i + 1) else Halted), u, steps + 3)
  {
    hide ReachedIn, Probe, FirstIn;
    var k := Probe(blockno, i, |s.rings|);
    SearchFails(s.rings[k], Free(s.bufs));
    StepOn(s, u, steps, t);
    var s1 := Own(s, t);
    StepOn(s1, u, steps + 1, t);
    var s2 := Own(s1, t);
    assert s2 == s.(lock := s.lock[k := By(t)], pcs := s.pcs[t := StealMiss(dev, blockno, i)]);
    StepOn(s2, u, steps + 2, t);
    assert s.lock[k := By(t)][k := Nobody] == s.lock;
    assert Own(s2, t) == At(s, t, if i + 1 < |s.rings| then StealWait(dev, blockno, i + 1) else Halted);
  }

  // The probes i .. j-1 find none.
  lemma {:induction false} ProbesMiss(s: State, u: Setup, steps: nat, t: nat, dev: U32, blockno: U32, i: nat, j: nat)
    requires Going(s, u, steps) && t < |s.pcs| && s.pcs[t] == StealWait(dev, blockno, i) && i <= j <= |s.rings|
    requires i < |s.rings|
    requires forall m: nat | i <= m < j :: var k := Probe(blockno, m, |s.rings|); s.lock[k] == Nobody && NoFree(s, k)
    ensures Going(At(s, t, if j < |s.rings| then StealWait(dev, blockno, j) else Halted), u, steps + 3 * (j - i))
    decreases j - i
  {
    hide Going, Probe, NoFree;
    if i == j {
      assert s.pcs[t := StealWait(dev, blockno, j)] == s.pcs;
    } else {
      ProbeMisses(s, u, steps, t, dev, blockno, i);
      if i + 1 < |s.rings| {
        var s' := At(s, t, StealWait(dev, blockno, i + 1));
        forall m: nat | i + 1 <= m < j
          ensures NoFree(s', Probe(blockno, m, |s.rings|))
        {
          SameFree(s, s', Probe(blockno, m, |s.rings|));
        }
        ProbesMiss(s', u, steps + 3, t, dev, blockno, i + 1, j);
        var pc := if j < |s.rings| then StealWait(dev, blockno, j) else Halted;
        assert s'.pcs[t := pc] == s.pcs[t := pc];
      }
    }
  }

  lemma SameFree(s: State, s': State, k: nat)
    requires s'.rings == s.rings && s'.bufs == s.bufs && k < |s.rings|
    ensures NoFree(s', k) <==> NoFree(s, k)
  {
  }

  // The state in which t has taken the free buffer at position j off ring k.
  function Lifted(s: State, t: nat, dev: U32, blockno: U32, i: nat, k: nat, j: nat): State
    requires t < |s.pcs| && k < |s.rings| && k < |s.lock| && j < |s.rings[k]| && s.rings[k][j] < |s.bufs|
  {
    var b := s.rings[k][j];
    Keyed(s, b, dev, blockno).(lock := s.lock[k := By(t)], pcs := s.pcs[t := MoveWait(b, blockno, i)],
                               rings := Unlink(s.rings, k, j), transit := s.transit + {b})
  }

  lemma Lifts(s: State, u: Setup, steps: nat, t: nat, dev: U32, blockno: U32, i: nat, j: nat)
    requires Going(s, u, steps) && t < |s.pcs| && s.pcs[t] == StealWait(dev, blockno, i)
    requires var k := Probe(blockno, i, |s.rings|);
             s.lock[k] == Nobody && j == FirstIn(s.rings[k], Free(s.bufs)) < |s.rings[k]|
    ensures var k := Probe(blockno, i, |s.rings|);
            s.rings[k][j] < |s.bufs| && Going(Lifted(s, t, dev, blockno, i, k, j), u, steps + 2)
  {
    hide ReachedIn, Probe, FirstIn;
    var k := Probe(blockno, i, |s.rings|);
    assert s.rings[k][j] in s.rings[k];
    StepOn(s, u, steps, t);
    var s1 := Own(s, t);
    StepOn(s1, u, steps + 1, t);
    assert Own(s1, t) == Lifted(s, t, dev, blockno, i, k, j);
    assert forall b | b in Without(s.rings[k], j) :: b in s.rings[k];
  }

  // ... and in which it has linked it in at home and is done.
  function Landed(s: State, t: nat, b: nat, k: nat, home: nat): State
    requires t < |s.pcs| && home < |s.rings| && k < |s.lock|
  {
    s.(lock := s.lock[k := Nobody], pcs := s.pcs[t := Idle], rings := Push(s.rings, home, b),
       transit := s.transit - {b}, refs := s.refs + multiset{b})
  }

  lemma Lands(s: State, u: Setup, steps: nat, t: nat, b: nat, blockno: U32, i: nat)
    requires Going(s, u, steps) && t < |s.pcs| && s.pcs[t] == MoveWait(b, blockno, i) && b < |s.bufs|
    requires var k, home := Probe(blockno, i, |s.rings|), Home(blockno, |s.rings|);
             k != home && s.lock[k] == By(t) && s.lock[home] == Nobody
    ensures var k, home := Probe(blockno, i, |s.rings|), Home(blockno, |s.rings|);
            Going(Landed(s, t, b, k, home), u, steps + 4)
  {
    hide ReachedIn, Probe, Home;
    var k, home := Probe(blockno, i, |s.rings|), Home(blockno, |s.rings|);
    StepOn(s, u, steps, t);
    var s1 := Own(s, t);
    StepOn(s1, u, steps + 1, t);
    var s2 := Own(s1, t);
    StepOn(s2, u, steps + 2, t);
    var s3 := Own(s2, t);
    StepOn(s3, u, steps + 3, t);
    assert s.lock[home := By(t)][home := Nobody][k := Nobody] == s.lock[k := Nobody];
    assert Own(s3, t) == Landed(s, t, b, k, home);
    assert forall c | c in [b] + s.rings[home] :: c == b || c in s.rings[home];
  }

  /* bget. */

  function CacheOf(s: State): Cache { Cache(s.rings, s.bufs) }

  // No lock is held and no buffer in transit.
  ghost predicate Quiet(s: State) {
    && WellFormed(CacheOf(s)) && |s.lock| == |s.rings| && s.transit == {}
    && forall k | 0 <= k < |s.lock| :: s.lock[k] == Nobody
  }

  // What bget computes, with t's reference.
  ghost function Got(s: State, t: nat, dev: U32, blockno: U32): State
    requires WellFormed(CacheOf(s)) && t < |s.pcs|
  {
    var ch, c := Choose(CacheOf(s), dev, blockno), Get(CacheOf(s), dev, blockno);
    if ch.NoBuffers? then At(s, t, Halted)
    else At(s.(rings := c.rings, bufs := c.bufs, refs := s.refs + multiset{Chosen(CacheOf(s), ch)}), t, Idle)
  }

  // The search of the own ring finds the block or a free buffer.
  lemma LooksUp(s: State, u: Setup, steps: nat, t: nat, dev: U32, blockno: U32)
    requires Going(s, u, steps) && Quiet(s) && t < |s.pcs| && s.pcs[t] == GetWait(dev, blockno)
    requires var ch := Choose(CacheOf(s), dev, blockno); ch.Hit? || ch.Recycle?
    ensures ReachedIn(Got(s, t, dev, blockno), u, steps + 3)
  {
    hide ReachedIn, FirstIn, LastIn, Home, Choose, Get, Got, WellFormed, Matching, Free, Inc, Dec, Probe, Unlink,
      Push, Move;
    var home := Home(blockno, |s.rings|);
    var b, bufs := LookFinds(s, t, dev, blockno);
    assert forall j | 0 <= j < |s.rings[home]| :: s.rings[home][j] in s.rings[home];
    StepOn(s, u, steps, t);
    var s1 := Own(s, t);
    StepOn(s1, u, steps + 1, t);
    var s2 := Own(s1, t);
    assert s2 == s.(lock := s.lock[home := By(t)], bufs := bufs, pcs := s.pcs[t := GetDone(b, home)]);
    OneMore(s2, u, steps + 2, t, Step);
    assert s.lock[home := By(t)][home := Nobody] == s.lock;
    assert Own(s2, t) == Got(s, t, dev, blockno);
  }

  lemma LookFinds(s: State, t: nat, dev: U32, blockno: U32) returns (b: nat, bufs: seq<Buf>)
    requires WellFormed(CacheOf(s)) && t < |s.pcs|
    requires var ch := Choose(CacheOf(s), dev, blockno); ch.Hit? || ch.Recycle?
    ensures var ring := s.rings[Home(blockno, |s.rings|)];
            var i, j := FirstIn(ring, Matching(s.bufs, dev, blockno)), LastIn(ring, Free(s.bufs));
            if i < |ring| then
              b == ring[i] < |s.bufs| && bufs == s.bufs[b := s.bufs[b].(refcnt := Inc(s.bufs[b].refcnt))]
            else
              j >= 0 && b == ring[j] < |s.bufs| && bufs == s.bufs[b := Buf(dev, blockno, 1, false, s.bufs[b].sleeper)]
    ensures Got(s, t, dev, blockno) == At(s.(bufs := bufs, refs := s.refs + multiset{b}), t, Idle)
  {
    hide FirstIn, LastIn, FirstProbe, Matching, Free, Inc, NoDup, OnSomeRing;
    var ring := s.rings[Home(blockno, |s.rings|)];
    assert OnlyBuffers(ring, |s.bufs|, {});
    assert forall j | 0 <= j < |ring| :: ring[j] in ring;
    b := Chosen(CacheOf(s), Choose(CacheOf(s), dev, blockno));
    bufs := Got(s, t, dev, blockno).bufs;
  }

  lemma ChoiceIs(c: Cache, dev: U32, blockno: U32)
    requires 0 < |c.rings|
    ensures var n, ch := |c.rings|, Choose(c, dev, blockno);
            var home, p := Home(blockno, n), FirstProbe(c, blockno, 1);
            !ch.Hit? && !ch.Recycle? ==>
              && (forall b | b in c.rings[home] :: b !in Matching(c.bufs, dev, blockno) && b !in Free(c.bufs))
              && if p < n then ch == Steal(Probe(blockno, p, n), FirstIn(c.rings[Probe(blockno, p, n)], Free(c.bufs)))
                               && Probe(blockno, p, n) != home
                 else ch == NoBuffers
  {
    var ring := c.rings[Home(blockno, |c.rings|)];
    assert forall j | 0 <= j < |ring| :: ring[j] in ring;
    hide Probe, Free, Matching;
  }

  // A bget run alone computes Get, or halts where Get finds no buffer.
  lemma GetAlone(s: State, u: Setup, steps: nat, t: nat, dev: U32, blockno: U32) returns (steps': nat)
    requires Going(s, u, steps) && Quiet(s) && t < |s.pcs| && s.pcs[t] == Idle
    ensures ReachedIn(Got(s, t, dev, blockno), u, steps')
  {
    hide ReachedIn, FirstIn, LastIn, FirstProbe, Probe, Home, Partition, Choose, Get, Matching, Free;
    var c, n := CacheOf(s), |s.rings|;
    var s1 := At(s, t, GetWait(dev, blockno));
    OneMore(s, u, steps, t, CallGet(dev, blockno));
    var ch := Choose(c, dev, blockno);
    if ch.Hit? || ch.Recycle? {
      LooksUp(s1, u, steps + 1, t, dev, blockno);
      steps' := steps + 4;
      assert Got(s1, t, dev, blockno) == Got(s, t, dev, blockno);
    } else {
      ChoiceIs(c, dev, blockno);
      MissesOwn(s1, u, steps + 1, t, dev, blockno);
      if n > 1 {
        steps' := StealsAlone(s, u, steps + 4, t, dev, blockno);
      } else {
        steps' := steps + 4;
        OneBucket(c, blockno);
        assert s1.pcs[t := Halted] == s.pcs[t := Halted];
      }
    }
  }

  lemma OneBucket(c: Cache, blockno: U32)
    requires |c.rings| == 1
    ensures FirstProbe(c, blockno, 1) == 1
  {
  }

  lemma StealsAlone(s: State, u: Setup, steps: nat, t: nat, dev: U32, blockno: U32) returns (steps': nat)
    requires Quiet(s) && t < |s.pcs| && 1 < |s.rings|
    requires Going(At(At(s, t, GetWait(dev, blockno)), t, StealWait(dev, blockno, 1)), u, steps)
    requires var ch := Choose(CacheOf(s), dev, blockno); !ch.Hit? && !ch.Recycle?
    ensures ReachedIn(Got(s, t, dev, blockno), u, steps')
  {
    hide ReachedIn, FirstIn, LastIn, FirstProbe, Probe, Home, Partition, Choose, Matching, Free;
    var c, n := CacheOf(s), |s.rings|;
    var p := FirstProbe(c, blockno, 1);
    var s1 := At(s, t, StealWait(dev, blockno, 1));
    assert At(At(s, t, GetWait(dev, blockno)), t, StealWait(dev, blockno, 1)) == s1;
    ChoiceIs(c, dev, blockno);
    forall m: nat | 1 <= m < p
      ensures NoFree(s1, Probe(blockno, m, n))
    {
      FirstProbeSkips(c, blockno, 1, m);
    }
    ProbesMiss(s1, u, steps, t, dev, blockno, 1, p);
    steps' := steps + 3 * (p - 1);
    if p == n {
      assert s1.pcs[t := Halted] == s.pcs[t := Halted];
    } else {
      var s2 := At(s, t, StealWait(dev, blockno, p));
      assert At(s1, t, StealWait(dev, blockno, p)) == s2;
      var k, home := Probe(blockno, p, n), Home(blockno, n);
      var j := FirstIn(s.rings[k], Free(s.bufs));
      Lifts(s2, u, steps', t, dev, blockno, p, j);
      var s3 := Lifted(s2, t, dev, blockno, p, k, j);
      Lands(s3, u, steps' + 2, t, s.rings[k][j], blockno, p);
      StealComesTo(s, s2, t, dev, blockno, p, j);
      steps' := steps' + 6;
    }
  }

  lemma StealComesTo(s: State, s2: State, t: nat, dev: U32, blockno: U32, p: nat, j: nat)
    requires Quiet(s) && t < |s.pcs| && 0 < |s.rings| && s2 == At(s, t, StealWait(dev, blockno, p))
    requires var k := Probe(blockno, p, |s.rings|);
             && j < |s.rings[k]| && s.rings[k][j] < |s.bufs|
             && Choose(CacheOf(s), dev, blockno) == Steal(k, j)
    ensures var k, home := Probe(blockno, p, |s.rings|), Home(blockno, |s.rings|);
            Landed(Lifted(s2, t, dev, blockno, p, k, j), t, s.rings[k][j], k, home) == Got(s, t, dev, blockno)
  {
    hide Partition, Choose, Probe;
    var k := Probe(blockno, p, |s.rings|);
    assert s.lock[k := By(t)][k := Nobody] == s.lock;
    assert {} + {s.rings[k][j]} - {s.rings[k][j]} == {};
    assert s2.pcs[t := MoveWait(s.rings[k][j], blockno, p)][t := Idle] == s.pcs[t := Idle];
  }

  /* brelse, bpin and bunpin. */

  // What they compute, by a thread that has a reference.
  ghost function Operated(s: State, op: Op, b: nat): State
    requires Sized(s) && b < |s.bufs| && b in s.rings[Home(s.bufs[b].blockno, |s.rings|)]
  {
    var k := Home(s.bufs[b].blockno, |s.rings|);
    var s' := Counted(s, b, if op.Pin? then Inc(s.bufs[b].refcnt) else Dec(s.bufs[b].refcnt));
    s'.(refs := if op.Pin? then s.refs + multiset{b} else s.refs - multiset{b},
        rings := if op.Relse? && s'.bufs[b].refcnt == 0 then Move(s.rings, k, PosOf(s.rings[k], b), k) else s.rings)
  }

  // That is what the atomic operations compute.
  lemma OperatedIs(s: State, op: Op, b: nat)
    requires Sized(s) && WellFormed(CacheOf(s)) && b < |s.bufs| && b in s.rings[Home(s.bufs[b].blockno, |s.rings|)]
    requires s.bufs[b].sleeper == 0
    ensures CacheOf(Operated(s, op, b)) == match op
                                           case Relse => Release(CacheOf(s), b)
                                           case Pin => Atomic.Pin(CacheOf(s), b)
                                           case Unpin => Atomic.Unpin(CacheOf(s), b)
  {
    RingOfUnique(s.rings, b, Home(s.bufs[b].blockno, |s.rings|));
    hide Move;
  }

  lemma OpAlone(s: State, u: Setup, steps: nat, t: nat, op: Op, b: nat)
    requires Going(s, u, steps) && t < |s.pcs| && s.pcs[t] == Idle && s.refs[b] > 0 && b < |s.bufs|
    requires var k := Home(s.bufs[b].blockno, |s.rings|); s.lock[k] == Nobody && b in s.rings[k]
    ensures ReachedIn(Operated(s, op, b), u, steps + 4)
  {
    hide ReachedIn, Home, Operated, Inc, Dec, Move;
    var k := Home(s.bufs[b].blockno, |s.rings|);
    OneMore(s, u, steps, t, CallOp(op, b));
    var s1 := Next(s, t, CallOp(op, b));
    StepOn(s1, u, steps + 1, t);
    var s2 := Own(s1, t);
    assert s2 == s.(lock := s.lock[k := By(t)], pcs := s.pcs[t := OpDo(op, b, k)], refs := s.refs - multiset{b});
    OpEnds(s, s2, u, steps + 2, t, op, b);
  }

  lemma OpEnds(s: State, s2: State, u: Setup, steps: nat, t: nat, op: Op, b: nat)
    requires Sized(s) && LowCounts(s) && ReachedIn(s2, u, steps) && t < |s.pcs| && s.pcs[t] == Idle
    requires s.refs[b] > 0 && b < |s.bufs|
    requires var k := Home(s.bufs[b].blockno, |s.rings|);
             && s.lock[k] == Nobody && b in s.rings[k]
             && s2 == s.(lock := s.lock[k := By(t)], pcs := s.pcs[t := OpDo(op, b, k)], refs := s.refs - multiset{b})
    ensures ReachedIn(Operated(s, op, b), u, steps + 2)
  {
    hide ReachedIn, Home, Inc, Dec, Move, Free, Matching, FirstIn, LastIn, Probe, Unlink, Push, PosOf;
    var k := Home(s.bufs[b].blockno, |s.rings|);
    MoveLength(s.rings, k, PosOf(s.rings[k], b), k);
    StepOn(s2, u, steps, t);
    var s3 := Own(s2, t);
    OneMore(s3, u, steps + 1, t, Step);
    assert s.lock[k := By(t)][k := Nobody] == s.lock && s.pcs[t := Idle] == s.pcs;
    assert s.refs - multiset{b} + multiset{b, b} == s.refs + multiset{b};
    assert Own(s3, t) == Operated(s, op, b);
  }

  lemma MoveLength(rings: Rings, k: nat, i: nat, k': nat)
    requires k < |rings| && i < |rings[k]| && k' < |rings|
    ensures |Move(rings, k, i, k')| == |rings|
  {
  }

  /* A cache in which every buffer is in use. */

  // No operation is in a critical section, and no buffer has two references.
  ghost predicate Steady(s: State, u: Setup, steps: nat) {
    && ReachedIn(s, u, steps) && u.n < 0x8000_0000 && Inv(s) && |s.rings| == u.n && |s.bufs| == u.nbuf
    && s.transit == {} && (forall k | 0 <= k < |s.lock| :: s.lock[k] == Nobody)
    && forall b: nat | b < |s.bufs| :: s.bufs[b].refcnt == s.refs[b] <= 1
  }

  lemma SteadyGoing(s: State, u: Setup, steps: nat)
    requires Steady(s, u, steps)
    ensures Going(s, u, steps) && Quiet(s)
  {
    assert forall k | 0 <= k < |s.rings| :: OnlyBuffers(s.rings[k], |s.bufs|, {});
    hide ReachedIn, NoDup;
  }

  lemma InitSteady(u: Setup)
    requires 0 < u.n < 0x8000_0000
    ensures Steady(Init(u.nbuf, u.n, u.threads), u, 0)
  {
    AtStart(u);
    InitInv(u.nbuf, u.n, u.threads);
    hide ReachedIn, Inv, InitRings;
  }

  // A bget for a new block of ring k gives some free buffer that block.
  lemma PutsOn(s: State, u: Setup, steps: nat, t: nat, dev: U32, k: nat) returns (s': State, steps': nat, x: nat)
    requires Steady(s, u, steps) && t < |s.pcs| && s.pcs[t] == Idle && k < u.n
    requires forall b: nat | b < |s.bufs| :: s.bufs[b].dev != dev
    requires exists b: nat :: b < |s.bufs| && s.bufs[b].refcnt == 0
    ensures Steady(s', u, steps') && s'.pcs == s.pcs
    ensures x < |s.bufs| && s.bufs[x].refcnt == 0
    ensures s'.bufs == s.bufs[x := Buf(dev, k, 1, false, s.bufs[x].sleeper)]
  {
    hide ReachedIn, Inv, WellFormed, Choose, Get, Got;
    SteadyGoing(s, u, steps);
    steps' := GetAlone(s, u, steps, t, dev, k);
    s' := Got(s, t, dev, k);
    x := NewBuffer(s, t, dev, k);
    ReachedInv(s', u, steps');
  }

  lemma ReachedInv(s: State, u: Setup, steps: nat)
    requires ReachedIn(s, u, steps) && u.n < 0x8000_0000
    ensures Inv(s)
  {
    RunInv(s, u.nbuf, u.n, u.threads, steps);
  }

  lemma NewBuffer(s: State, t: nat, dev: U32, k: nat) returns (x: nat)
    requires Quiet(s) && t < |s.pcs| && s.pcs[t] == Idle && k < |s.rings| < 0x8000_0000
    requires forall b: nat | b < |s.bufs| :: s.bufs[b].dev != dev
    requires exists b: nat :: b < |s.bufs| && s.bufs[b].refcnt == 0
    ensures x < |s.bufs| && s.bufs[x].refcnt == 0
    ensures var s' := Got(s, t, dev, k);
            && |s'.rings| == |s.rings| && s'.lock == s.lock && s'.transit == s.transit && s'.pcs == s.pcs
            && s'.bufs == s.bufs[x := Buf(dev, k, 1, false, s.bufs[x].sleeper)]
            && s'.refs == s.refs + multiset{x}
  {
    hide Partition, FirstIn, LastIn, FirstProbe, Choose;
    var c := CacheOf(s);
    FindsOne(c, dev, k);
    BcacheRuns.ChosenIs(c, dev, k);
    x := Chosen(c, Choose(c, dev, k));
    assert s.pcs[t := Idle] == s.pcs;
  }

  lemma FindsOne(c: Cache, dev: U32, k: nat)
    requires WellFormed(c) && k < |c.rings|
    requires exists b: nat :: b < |c.bufs| && c.bufs[b].refcnt == 0
    ensures !Choose(c, dev, k).NoBuffers?
  {
    hide Choose;
    var b: nat :| b < |c.bufs| && c.bufs[b].refcnt == 0;
    assert OnSomeRing(c.rings, b);
    AlignedReachesAll(k, |c.rings|);
    assert Reaches(k, |c.rings|, RingOf(c.rings, b));
    var i: nat :| i < |c.rings| && Probe(k, i, |c.rings|) == RingOf(c.rings, b);
    if Choose(c, dev, k).NoBuffers? {
      BcacheRuns.NoBuffersProbed(c, dev, k, i);
    }
  }

  // All buffers have a reference, and their devices are within bounds.
  ghost predicate Full(s: State, u: Setup, steps: nat, lo: nat, hi: nat) {
    Steady(s, u, steps) && forall b: nat | b < |s.bufs| :: s.bufs[b].refcnt == 1 && lo <= s.bufs[b].dev < hi
  }

  // Buffers in use have devices from lo on, and all are below d.
  ghost predicate Filling(s: State, lo: nat, d: nat) {
    forall b: nat | b < |s.bufs| :: s.bufs[b].dev < d && (s.bufs[b].refcnt > 0 ==> lo <= s.bufs[b].dev)
  }

  // One bget after the other, until none is free. What was in use stays as it was.
  lemma {:induction false} Fills(s: State, u: Setup, steps: nat, t: nat, lo: nat, d: nat)
      returns (s': State, steps': nat, hi: nat)
    requires Steady(s, u, steps) && t < |s.pcs| && s.pcs[t] == Idle && Filling(s, lo, d) && lo <= d
    requires d + |Free(s.bufs)| <= TWO32
    ensures hi == d + |Free(s.bufs)| && Full(s', u, steps', lo, hi) && s'.pcs == s.pcs
    ensures forall b: nat | b < |s.bufs| && s.bufs[b].refcnt > 0 :: s'.bufs[b] == s.bufs[b]
    decreases |Free(s.bufs)|
  {
    hide Steady;
    SteadySizes(s, u, steps);
    if b :| b in Free(s.bufs) {
      var s1, steps1, x := PutsOn(s, u, steps, t, d, 0);
      SteadySizes(s1, u, steps1);
      OneLessFree(s.bufs, x, s1.bufs);
      s', steps', hi := Fills(s1, u, steps1, t, lo, d + 1);
    } else {
      s', steps', hi := s, steps, d;
      forall b: nat | b < |s.bufs|
        ensures s.bufs[b].refcnt == 1
      {
        assert b !in Free(s.bufs);
      }
    }
  }

  lemma OneLessFree(bufs: seq<Buf>, x: nat, bufs': seq<Buf>)
    requires x < |bufs| && bufs[x].refcnt == 0 && |bufs'| == |bufs| && bufs' == bufs[x := bufs'[x]]
    requires bufs'[x].refcnt > 0
    ensures |Free(bufs')| == |Free(bufs)| - 1
  {
    forall b: nat | b < |bufs| && b != x
      ensures b in Free(bufs') <==> b in Free(bufs)
    {
      assert bufs'[b] == bufs[b];
    }
    assert Free(bufs') == Free(bufs) - {x};
    assert x in Free(bufs);
  }

  lemma SteadySizes(s: State, u: Setup, steps: nat)
    requires Steady(s, u, steps)
    ensures |s.rings| == u.n > 0 && |s.bufs| == u.nbuf && |s.lock| == u.n < 0x8000_0000
    ensures forall b: nat | b < |s.bufs| :: s.bufs[b].refcnt <= 1
  {
  }
}
