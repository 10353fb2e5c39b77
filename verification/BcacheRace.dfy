/** Runs of the buffer cache in which something goes wrong, for any number of buffers
    and buckets: two bgets give two buffers the same key, two thieves wait for each
    other, one waits for itself, a reference count runs over. */
module BcacheRace {
  import opened Rows
  import opened Residues
  import opened BufRings
  import opened Bcache
  import opened BcacheProbe
  import opened BcacheProtocol
  import opened BcacheAlone
  import opened BcacheWaits
  import BcacheRuns

  /* How they begin: all buffers in use, some of them on chosen rings. */

  // Devices from lo on for the blocks asked for first, and none of them d or d'.
  lemma OtherDevices(nbuf: nat, d: U32, d': U32) returns (lo: nat)
    requires nbuf < 0x4000_0000
    ensures 0 < lo && lo + nbuf + 2 <= TWO32
    ensures !(lo <= d < lo + nbuf + 2) && !(lo <= d' < lo + nbuf + 2)
  {
    var l := nbuf + 2;
    lo := if !(1 <= d < 1 + l) && !(1 <= d' < 1 + l) then 1
          else if !(1 + l <= d < 1 + 2 * l) && !(1 + l <= d' < 1 + 2 * l) then 1 + l
          else 1 + 2 * l;
  }

  lemma FreeBound(bufs: seq<Buf>)
    ensures |Free(bufs)| <= |bufs|
  {
    var all := From(0, |bufs|);
    FromSize(0, |bufs|);
    assert Free(bufs) <= all;
    SubsetSize(Free(bufs), all);
  }

  lemma {:induction false} FromSize(lo: nat, hi: nat)
    requires lo <= hi
    ensures |From(lo, hi)| == hi - lo
    decreases hi - lo
  {
    if lo < hi {
      FromSize(lo + 1, hi);
      assert lo !in From(lo + 1, hi);
    }
  }

  lemma SubsetSize(a: set<nat>, b: set<nat>)
    requires a <= b
    ensures |a| <= |b|
  {
    assert a + (b - a) == b;
  }

  // Buffer x on ring j and buffer y on ring k, and the others somewhere.
  lemma Prepares(u: Setup, lo: nat, t: nat, j: nat, k: nat) returns (s: State, steps: nat, x: nat, y: nat)
    requires j < u.n < 0x8000_0000 && k < u.n && 2 <= u.nbuf && t < u.threads && 0 < lo && lo + u.nbuf + 2 <= TWO32
    ensures Full(s, u, steps, lo, lo + u.nbuf + 2) && s.pcs == Idles(u.threads)
    ensures x < |s.bufs| && y < |s.bufs| && x != y && s.bufs[x].blockno == j && s.bufs[y].blockno == k
  {
    hide Steady, InitRings, Free, Full;
    var s0 := Init(u.nbuf, u.n, u.threads);
    InitSteady(u);
    InitBufs(u);
    assert s0.bufs[0].refcnt == 0;
    var s1, steps1, x1 := PutsOn(s0, u, 0, t, lo, j);
    x := x1;
    assert s1.bufs[if x == 0 then 1 else 0].refcnt == 0;
    var s2, steps2, y1 := PutsOn(s1, u, steps1, t, lo + 1, k);
    y := y1;
    FreeBound(s2.bufs);
    var hi;
    s, steps, hi := Fills(s2, u, steps2, t, lo, lo + 2);
    FullWider(s, u, steps, lo, hi, lo + u.nbuf + 2);
  }

  lemma InitBufs(u: Setup)
    requires 0 < u.n
    ensures var s := Init(u.nbuf, u.n, u.threads);
            && s.pcs == Idles(u.threads) && |s.pcs| == u.threads && |s.bufs| == u.nbuf
            && forall b: nat | b < |s.bufs| :: s.bufs[b] == ZERO_BUF
  {
  }

  lemma FullWider(s: State, u: Setup, steps: nat, lo: nat, hi: nat, hi': nat)
    requires Full(s, u, steps, lo, hi) && hi <= hi'
    ensures Full(s, u, steps, lo, hi') && |s.bufs| == u.nbuf
  {
  }

  // Buffer x on ring j, and the others somewhere.
  lemma PreparesOne(u: Setup, lo: nat, t: nat, j: nat) returns (s: State, steps: nat, x: nat)
    requires j < u.n < 0x8000_0000 && 1 <= u.nbuf && t < u.threads && 0 < lo && lo + u.nbuf + 2 <= TWO32
    ensures Full(s, u, steps, lo, lo + u.nbuf + 2) && s.pcs == Idles(u.threads)
    ensures x < |s.bufs| && s.bufs[x].blockno == j
  {
    hide Steady, InitRings, Free, Full;
    var s0 := Init(u.nbuf, u.n, u.threads);
    InitSteady(u);
    InitBufs(u);
    assert s0.bufs[0].refcnt == 0;
    var s1, steps1, x1 := PutsOn(s0, u, 0, t, lo, j);
    x := x1;
    FreeBound(s1.bufs);
    var hi;
    s, steps, hi := Fills(s1, u, steps1, t, lo, lo + 1);
    FullWider(s, u, steps, lo, hi, lo + u.nbuf + 2);
  }

  // With all buffers in use for other blocks a bget goes on to its first probe.
  lemma AsksInVain(s: State, u: Setup, steps: nat, t: nat, dev: U32, blockno: U32, lo: nat, hi: nat)
    requires Full(s, u, steps, lo, hi) && t < |s.pcs| && s.pcs[t] == Idle && !(lo <= dev < hi) && 1 < u.n
    ensures Full(At(s, t, StealWait(dev, blockno, 1)), u, steps + 4, lo, hi)
  {
    hide Inv, ReachedIn, Home, Partition;
    SteadyGoing(s, u, steps);
    OneMore(s, u, steps, t, CallGet(dev, blockno));
    var s1 := At(s, t, GetWait(dev, blockno));
    MissesOwn(s1, u, steps + 1, t, dev, blockno);
    var s2 := At(s, t, StealWait(dev, blockno, 1));
    assert At(s1, t, StealWait(dev, blockno, 1)) == s2;
    ReachedInv(s2, u, steps + 4);
  }

  // The buffers that are free and on ring k.
  ghost predicate FreeOn(s: State, b: nat, k: nat) {
    b < |s.bufs| && s.bufs[b].refcnt == 0 && k < |s.rings| && b in s.rings[k]
  }

  // Thread t gives back its buffer b.
  lemma GivesBack(s: State, u: Setup, steps: nat, t: nat, b: nat) returns (s': State)
    requires Steady(s, u, steps) && t < |s.pcs| && s.pcs[t] == Idle && b < |s.bufs| && s.bufs[b].refcnt == 1
    ensures Steady(s', u, steps + 4) && s'.pcs == s.pcs && s'.bufs == s.bufs[b := s.bufs[b].(refcnt := 0)]
    ensures |s'.rings| == |s.rings| && FreeOn(s', b, s.bufs[b].blockno % u.n)
    ensures forall c, k | FreeOn(s, c, k) :: FreeOn(s', c, k)
  {
    hide ReachedIn, Inv, Move;
    SteadyGoing(s, u, steps);
    OnHome(s, u, steps, b);
    OpAlone(s, u, steps, t, Relse, b);
    s' := Operated(s, Relse, b);
    ReachedInv(s', u, steps + 4);
    var k := Home(s.bufs[b].blockno, u.n);
    MoveLength(s.rings, k, PosOf(s.rings[k], b), k);
    MoveMembers(s.rings, |s.bufs|, {}, k, PosOf(s.rings[k], b), k);
  }

  lemma OnHome(s: State, u: Setup, steps: nat, b: nat)
    requires Steady(s, u, steps) && b < |s.bufs| && s.bufs[b].refcnt == 1
    ensures b in s.rings[Home(s.bufs[b].blockno, u.n)] && Partition(s.rings, |s.bufs|, {})
  {
  }

  // The first probe that comes to ring k.
  lemma ProbeAt(blockno: U32, n: nat, k: nat) returns (i: nat)
    requires 0 < n && k != Home(blockno, n) && Reaches(blockno, n, k)
    ensures 0 < i < n && Probe(blockno, i, n) == k
    ensures forall m: nat | 0 < m < i :: Probe(blockno, m, n) != k
  {
    hide Probe, Home;
    ProbeFirst(blockno, n);
    var last: nat :| last < n && Probe(blockno, last, n) == k;
    i := 1;
    while Probe(blockno, i, n) != k
      invariant 0 < i <= last && forall m: nat | 0 < m < i :: Probe(blockno, m, n) != k
      decreases last - i
    {
      i := i + 1;
    }
  }

  lemma ProbeFirst(blockno: U32, n: nat)
    requires 0 < n
    ensures Probe(blockno, 0, n) == Home(blockno, n)
  {
    ProbeHome(blockno, n);
  }

  // The first probe that comes to another ring than the own: the first but for one
  // block number.
  lemma FirstOther(blockno: U32, n: nat) returns (i: nat)
    requires 2 <= n < 0x8000_0000
    ensures 0 < i < n && Probe(blockno, i, n) != Home(blockno, n)
    ensures forall m: nat | 0 < m < i :: Probe(blockno, m, n) == Home(blockno, n)
  {
    i := 1;
    if blockno + 1 < TWO32 {
      ProbeBefore(blockno, n, 1);
    } else if blockno % n == 0 {
      i := 2;
      ProbeAfter(blockno, n, 1);
      ProbeAfter(blockno, n, 2);
    } else {
      ProbeAfter(blockno, n, 1);
    }
  }

  // Free buffers are on rings j and k only.
  ghost predicate OnlyOn(s: State, j: nat, k: nat) {
    forall b: nat, r: nat | FreeOn(s, b, r) :: r == j || r == k
  }

  // A thief passes its probes up to the i-th, where there is a free buffer, and
  // takes that off its ring.
  lemma ComesTo(s: State, u: Setup, steps: nat, t: nat, dev: U32, blockno: U32, i: nat, j: nat, k: nat, y: nat)
      returns (s': State, steps': nat, b: nat)
    requires Going(s, u, steps) && t < |s.pcs| && s.pcs[t] == StealWait(dev, blockno, 1) && 0 < i < |s.rings|
    requires OnlyOn(s, j, k) && Probe(blockno, i, |s.rings|) == k && s.lock[k] == Nobody && FreeOn(s, y, k)
    requires forall m: nat | 0 < m < i ::
               var r := Probe(blockno, m, |s.rings|); r != j && r != k && s.lock[r] == Nobody
    ensures Going(s', u, steps') && FreeOn(s, b, k) && |s'.rings| == |s.rings|
    ensures s'.lock == s.lock[k := By(t)] && s'.pcs == s.pcs[t := MoveWait(b, blockno, i)]
    ensures s'.bufs == s.bufs[b := Buf(dev, blockno, 1, false, s.bufs[b].sleeper)]
    ensures forall c, r :: FreeOn(s', c, r) <==> FreeOn(s, c, r) && c != b
  {
    hide ReachedIn, Probe, FirstIn;
    forall m: nat | 1 <= m < i
      ensures NoFree(s, Probe(blockno, m, |s.rings|))
    {
      NoneThere(s, j, k, Probe(blockno, m, |s.rings|));
    }
    ProbesMiss(s, u, steps, t, dev, blockno, 1, i);
    var s1 := At(s, t, StealWait(dev, blockno, i));
    var f := FirstIn(s.rings[k], Free(s.bufs));
    assert y in Free(s.bufs);
    Lifts(s1, u, steps + 3 * (i - 1), t, dev, blockno, i, f);
    b := s.rings[k][f];
    s', steps' := Lifted(s1, t, dev, blockno, i, k, f), steps + 3 * (i - 1) + 2;
    assert s1.pcs[t := MoveWait(b, blockno, i)] == s.pcs[t := MoveWait(b, blockno, i)];
  }

  lemma NoneThere(s: State, j: nat, k: nat, r: nat)
    requires OnlyOn(s, j, k) && r < |s.rings| && r != j && r != k
    ensures NoFree(s, r)
  {
    forall b | b in s.rings[r]
      ensures b !in Free(s.bufs)
    {
      assert !FreeOn(s, b, r);
    }
  }

  // Two threads have asked in vain for blocks; a third has given back x, on ring
  // j, and y, on ring k, and everything else is in use.
  lemma TwoAsk(u: Setup, d: U32, blockno: U32, d': U32, blockno': U32, j: nat, k: nat)
      returns (s: State, steps: nat, x: nat, y: nat)
    requires 1 < u.n < 0x8000_0000 && 2 <= u.nbuf < 0x4000_0000 && u.threads == 3 && j < u.n && k < u.n
    ensures Steady(s, u, steps) && s.pcs == [StealWait(d, blockno, 1), StealWait(d', blockno', 1), Idle]
    ensures x != y && FreeOn(s, x, j) && FreeOn(s, y, k) && OnlyOn(s, j, k)
    ensures forall b: nat | b < |s.bufs| && s.bufs[b].refcnt == 0 :: b == x || b == y
  {
    hide Steady, Full, FreeOn, OnlyOn, Inv;
    var lo := OtherDevices(u.nbuf, d, d');
    var hi := lo + u.nbuf + 2;
    var s0, steps0, x1, y1 := Prepares(u, lo, 2, j, k);
    x, y := x1, y1;
    assert s0.pcs == [Idle, Idle, Idle];
    AsksInVain(s0, u, steps0, 0, d, blockno, lo, hi);
    var s1 := At(s0, 0, StealWait(d, blockno, 1));
    AsksInVain(s1, u, steps0 + 4, 1, d', blockno', lo, hi);
    var s2 := At(s1, 1, StealWait(d', blockno', 1));
    FullIs(s2, u, steps0 + 8, lo, hi);
    var s3 := GivesBack(s2, u, steps0 + 8, 2, x);
    s := GivesBack(s3, u, steps0 + 12, 2, y);
    steps := steps0 + 16;
    BothFree(s, u, steps, x, y, j, k);
  }

  lemma FullIs(s: State, u: Setup, steps: nat, lo: nat, hi: nat)
    requires Full(s, u, steps, lo, hi)
    ensures Steady(s, u, steps) && forall b: nat | b < |s.bufs| :: s.bufs[b].refcnt == 1
  {
  }

  lemma BothFree(s: State, u: Setup, steps: nat, x: nat, y: nat, j: nat, k: nat)
    requires Steady(s, u, steps) && j < u.n && k < u.n && FreeOn(s, x, j % u.n) && FreeOn(s, y, k % u.n)
    requires forall b: nat | b < |s.bufs| && s.bufs[b].refcnt == 0 :: b == x || b == y
    ensures FreeOn(s, x, j) && FreeOn(s, y, k) && OnlyOn(s, j, k)
  {
    BcacheRuns.Modulo(j, u.n);
    BcacheRuns.Modulo(k, u.n);
    SteadyRings(s, u, steps);
    hide Steady;
    forall b: nat, r: nat | FreeOn(s, b, r)
      ensures r == j || r == k
    {
      RingOfUnique(s.rings, b, r);
      RingOfUnique(s.rings, b, if b == x then j else k);
    }
  }

  lemma SteadyRings(s: State, u: Setup, steps: nat)
    requires Steady(s, u, steps)
    ensures NoDup(s.rings) && Going(s, u, steps) && |s.lock| == |s.rings| == u.n
    ensures forall r | 0 <= r < |s.lock| :: s.lock[r] == Nobody
  {
    SteadyGoing(s, u, steps);
  }

  /* Two bgets for one block. */

  // One of the threads steals a buffer from ring g, and is done.
  lemma StealsFrom(s: State, u: Setup, steps: nat, t: nat, dev: U32, blockno: U32, i: nat, g: nat, y: nat)
      returns (s': State, steps': nat, b: nat)
    requires Going(s, u, steps) && Sized(s) && 0 < i < |s.rings|
    requires t < |s.pcs| && s.pcs[t] == StealWait(dev, blockno, 1)
    requires g < |s.rings| && Probe(blockno, i, |s.rings|) == g != Home(blockno, |s.rings|)
    requires forall m: nat | 0 < m < i :: Probe(blockno, m, |s.rings|) != g
    requires OnlyOn(s, g, g) && FreeOn(s, y, g) && forall r | 0 <= r < |s.lock| :: s.lock[r] == Nobody
    ensures Going(s', u, steps') && Sized(s') && |s'.rings| == |s.rings| && s'.pcs == s.pcs[t := Idle]
    ensures FreeOn(s, b, g) && b < |s.bufs| && s.bufs[b].refcnt == 0
    ensures s'.bufs == s.bufs[b := Buf(dev, blockno, 1, false, s.bufs[b].sleeper)]
    ensures OnlyOn(s', g, g) && (forall r | 0 <= r < |s'.lock| :: s'.lock[r] == Nobody)
    ensures forall c | FreeOn(s, c, g) && c != b :: FreeOn(s', c, g)
  {
    hide Going, FreeOn, OnlyOn, Probe, Home;
    var h := Home(blockno, |s.rings|);
    var s1, steps1, b1 := ComesTo(s, u, steps, t, dev, blockno, i, g, g, y);
    b := b1;
    FreeBelow(s, b, g);
    Lands(s1, u, steps1, t, b, blockno, i);
    s', steps' := Landed(s1, t, b, g, h), steps1 + 4;
    OnlyOnLess(s, s1, g, g, b);
    StillFree(s1, s', b, g, h);
  }

  // Both threads ask for the same block before either has stolen a buffer.
  lemma Race(nbuf: nat, n: nat, dev: U32, blockno: U32) returns (s: State, steps: nat, b: nat, b': nat)
    requires 2 <= nbuf < 0x4000_0000 && 2 <= n < 0x8000_0000
    ensures Reached(s, nbuf, n, 3, steps)
    ensures b < |s.bufs| && b' < |s.bufs| && b != b'
    ensures KeyOf(s.bufs[b]) == KeyOf(s.bufs[b']) == Key(dev, blockno) && s.bufs[b].refcnt == s.bufs[b'].refcnt == 1
  {
    hide Reached, Steady, Going, FreeOn, OnlyOn, Probe, Home;
    var u := Setup(nbuf, n, 3);
    var i := FirstOther(blockno, n);
    var g := Probe(blockno, i, n);
    var s1, steps1, x, y := TwoAsk(u, dev, blockno, dev, blockno, g, g);
    SteadyRings(s1, u, steps1);
    GoingSized(s1, u, steps1);
    var s2, steps2, b1 := StealsFrom(s1, u, steps1, 0, dev, blockno, i, g, x);
    var s3, steps3, b2 := StealsFrom(s2, u, steps2, 1, dev, blockno, i, g, if b1 == x then y else x);
    s, steps, b, b' := s3, steps3, b1, b2;
    GoingReached(s, u, steps);
  }

  lemma FreeBelow(s: State, b: nat, k: nat)
    requires FreeOn(s, b, k)
    ensures b < |s.bufs| && s.bufs[b].refcnt == 0
  {
  }

  // Linking in the buffer in hand, which is not free, changes nothing for the others.
  lemma StillFree(s2: State, s3: State, b: nat, g: nat, h: nat)
    requires g < |s2.rings| && h < |s2.rings| && |s2.lock| == |s2.rings| && b < |s2.bufs| && s2.bufs[b].refcnt > 0
    requires s3.rings == Push(s2.rings, h, b) && s3.bufs == s2.bufs && OnlyOn(s2, g, g)
    ensures OnlyOn(s3, g, g) && forall c | FreeOn(s2, c, g) :: FreeOn(s3, c, g)
  {
    forall c: nat, r: nat | FreeOn(s3, c, r)
      ensures r == g
    {
      assert FreeOn(s2, c, r);
    }
  }

  lemma GoingReached(s: State, u: Setup, steps: nat)
    requires Going(s, u, steps)
    ensures Reached(s, u.nbuf, u.n, u.threads, steps)
  {
  }

  /* Two thieves that wait for each other. */

  // Each holds the lock the other waits for.
  ghost predicate Crossed(s: State, t: nat, t': nat) {
    && Sized(s) && t < |s.pcs| && t' < |s.pcs| && t != t'
    && s.pcs[t].MoveWait? && s.pcs[t'].MoveWait?
    && s.lock[Home(s.pcs[t].blockno, |s.rings|)] == By(t') && s.lock[Home(s.pcs[t'].blockno, |s.rings|)] == By(t)
  }

  lemma CrossedStuck(s: State, t: nat, t': nat)
    requires Crossed(s, t, t')
    ensures Stuck(s, t) && Stuck(s, t')
  {
    hide Home, Probe;
    assert Hop(s, t, 1) == t' && Hop(s, t', 1) == t;
    assert RunsInto(s, t, 0, 2) && RunsInto(s, t', 0, 2);
  }

  // Two threads that ask for blocks of different rings, to whose probes the other's
  // ring belongs, and which do not come round to their own: each steals the
  // buffer given back on the other's ring.
  lemma DeadlockReached(nbuf: nat, n: nat, d: U32, blockno: U32, d': U32, blockno': U32) returns (s: State, steps: nat)
    requires 2 <= nbuf < 0x4000_0000 && 2 <= n < 0x8000_0000
    requires var h, h' := Home(blockno, n), Home(blockno', n);
             && h != h' && Reaches(blockno, n, h') && Reaches(blockno', n, h)
             && !ProbesItself(blockno, n) && !ProbesItself(blockno', n)
    ensures Reached(s, nbuf, n, 3, steps) && Crossed(s, 0, 1) && Stuck(s, 0) && Stuck(s, 1)
    ensures s.pcs[0].blockno == blockno && s.pcs[1].blockno == blockno'
  {
    hide Reached, Steady, Going, FreeOn, OnlyOn, Probe, Stuck;
    var u, h, h' := Setup(nbuf, n, 3), Home(blockno, n), Home(blockno', n);
    var s1, steps1, x, y := TwoAsk(u, d, blockno, d', blockno', h, h');
    SteadyRings(s1, u, steps1);
    var i := ProbeAt(blockno, n, h');
    var i' := ProbeAt(blockno', n, h);
    var s2, steps2, b := ComesTo(s1, u, steps1, 0, d, blockno, i, h, h', y);
    NotBoth(s1, u, steps1, x, h, b, h');
    OnlyOnLess(s1, s2, h, h', b);
    var s3, steps3, b' := ComesTo(s2, u, steps2, 1, d', blockno', i', h', h, x);
    s, steps := s3, steps3;
    GoingReached(s, u, steps);
    GoingSized(s, u, steps);
    CrossedStuck(s, 0, 1);
  }

  // That is so for aligned blocks.
  lemma AlignedMeet(blockno: U32, n: nat, k: nat)
    requires k < n <= TWO32 && ProbesAligned(blockno, n)
    ensures Reaches(blockno, n, k) && !ProbesItself(blockno, n)
  {
    hide Probe, Home;
    AlignedReachesAll(blockno, n);
    ProbeFirst(blockno, n);
    forall i: nat | 0 < i < n
      ensures Probe(blockno, i, n) != Home(blockno, n)
    {
      AlignedProbesDistinct(blockno, n, 0, i);
    }
  }

  lemma NotBoth(s: State, u: Setup, steps: nat, x: nat, h: nat, b: nat, h': nat)
    requires Steady(s, u, steps) && FreeOn(s, x, h) && FreeOn(s, b, h') && h != h'
    ensures x != b
  {
    SteadyRings(s, u, steps);
    hide Steady;
    if x == b {
      RingOfUnique(s.rings, x, h);
      RingOfUnique(s.rings, x, h');
    }
  }

  lemma OnlyOnLess(s: State, s': State, j: nat, k: nat, b: nat)
    requires OnlyOn(s, j, k) && forall c, r :: FreeOn(s', c, r) <==> FreeOn(s, c, r) && c != b
    ensures OnlyOn(s', k, j)
  {
  }

  lemma GoingSized(s: State, u: Setup, steps: nat)
    requires Going(s, u, steps)
    ensures Sized(s)
  {
  }

  /* A thief that waits for itself. */

  // A probe of the block comes round to ring h, its own, and no earlier one does.
  lemma ComesRound(blockno: U32, n: nat) returns (i: nat)
    requires 0 < n < 0x8000_0000 && ProbesItself(blockno, n)
    ensures 0 < i < n && Probe(blockno, i, n) == Home(blockno, n)
    ensures forall m: nat | 0 < m < i :: Probe(blockno, m, n) != Home(blockno, n)
  {
    ProbesItselfIff(blockno, n);
    HomeNearWrap(blockno, n);
    i := blockno % n + TWO32 - blockno;
    forall m: nat | 0 < m < n
      ensures Probe(blockno, m, n) == Home(blockno, n) <==> m == i
    {
      ProbeValue(blockno, n, m);
    }
  }

  // A thread asks in vain while all buffers are in use; then one of its own ring is
  // given back, and it comes round to that.
  lemma SelfWaitReached(nbuf: nat, n: nat, dev: U32, blockno: U32) returns (s: State, steps: nat)
    requires 1 <= nbuf < 0x4000_0000 && 0 < n < 0x8000_0000 && ProbesItself(blockno, n)
    ensures Reached(s, nbuf, n, 2, steps)
    ensures |s.pcs| == 2 && s.pcs[0].MoveWait? && s.pcs[0].blockno == blockno && WaitsForItself(s, 0) && Stuck(s, 0)
  {
    hide Reached, Steady, Full, Going, FreeOn, OnlyOn, Probe, Home, Stuck, Inv;
    var u, h := Setup(nbuf, n, 2), Home(blockno, n);
    var lo := OtherDevices(nbuf, dev, dev);
    var s0, steps0, x := PreparesOne(u, lo, 1, h);
    assert s0.pcs == [Idle, Idle];
    AsksInVain(s0, u, steps0, 0, dev, blockno, lo, lo + nbuf + 2);
    var s1 := At(s0, 0, StealWait(dev, blockno, 1));
    FullIs(s1, u, steps0 + 4, lo, lo + nbuf + 2);
    var s2 := GivesBack(s1, u, steps0 + 4, 1, x);
    BothFree(s2, u, steps0 + 8, x, x, h, h);
    SteadyRings(s2, u, steps0 + 8);
    var i := ComesRound(blockno, n);
    var s3, steps3, b := ComesTo(s2, u, steps0 + 8, 0, dev, blockno, i, h, h, x);
    s, steps := s3, steps3;
    GoingReached(s, u, steps);
    RunInv(s, nbuf, n, 2, steps);
    SelfWaitStuck(s, 0);
  }

  /* A count runs over. */

  // Buffer x has c references, given out, and nothing else happens.
  ghost predicate Pinned(s: State, u: Setup, steps: nat, x: nat, c: nat) {
    && ReachedIn(s, u, steps) && u.n < 0x8000_0000 && Inv(s) && x < |s.bufs| && |s.pcs| > 0 && s.pcs[0] == Idle
    && (forall k | 0 <= k < |s.lock| :: s.lock[k] == Nobody) && s.transit == {}
    && s.bufs[x].refcnt == s.refs[x] == c && forall b: nat | b < |s.bufs| && b != x :: s.bufs[b].refcnt <= 1
  }

  lemma PinMore(s: State, u: Setup, steps: nat, x: nat, c: nat)
    requires Pinned(s, u, steps, x, c) && 0 < c < TWO32 - 1
    ensures x < |s.bufs| && Sized(s) && x in s.rings[Home(s.bufs[x].blockno, |s.rings|)]
    ensures Pinned(Operated(s, Pin, x), u, steps + 4, x, c + 1)
  {
    hide ReachedIn, Home;
    assert forall k | 0 <= k < |s.rings| :: OnlyBuffers(s.rings[k], |s.bufs|, {});
    OpAlone(s, u, steps, 0, Pin, x);
    ReachedInv(Operated(s, Pin, x), u, steps + 4);
    hide Inv;
  }

  lemma {:induction false} Pins(s: State, u: Setup, steps: nat, x: nat, c: nat) returns (s': State, steps': nat)
    requires Pinned(s, u, steps, x, 1) && 0 < c < TWO32
    ensures Pinned(s', u, steps', x, c)
  {
    hide Pinned, Operated;
    if c == 1 {
      s', steps' := s, steps;
    } else {
      s', steps' := Pins(s, u, steps, x, c - 1);
      PinMore(s', u, steps', x, c - 1);
      s', steps' := Operated(s', Pin, x), steps' + 4;
    }
  }

  // A buffer is pinned until a bpin comes for which its count has no room.
  lemma OverflowReached(nbuf: nat, n: nat) returns (s: State, steps: nat)
    requires 1 <= nbuf && 0 < n < 0x8000_0000
    ensures Reached(s, nbuf, n, 1, steps) && Enabled(s, 0) && !Inv(Own(s, 0))
  {
    hide Reached, Steady, Inv, Own, InitRings, Pinned;
    var u := Setup(nbuf, n, 1);
    var s0 := Init(nbuf, n, 1);
    InitSteady(u);
    InitBufs(u);
    assert s0.bufs[0].refcnt == 0;
    var s1, steps1, x := PutsOn(s0, u, 0, 0, 1, 0);
    FirstPinned(s1, u, steps1, x);
    var s2, steps2 := Pins(s1, u, steps1, x, TWO32 - 1);
    s := OnePinMore(s2, u, steps2, x);
    steps := steps2 + 2;
    Overflows(s, 0);
  }

  lemma FirstPinned(s: State, u: Setup, steps: nat, x: nat)
    requires Steady(s, u, steps) && s.pcs == Idles(1) && x < |s.bufs| && s.bufs[x].refcnt == 1
    ensures Pinned(s, u, steps, x, 1)
  {
    hide ReachedIn, Inv;
  }

  lemma OnePinMore(s: State, u: Setup, steps: nat, x: nat) returns (s': State)
    requires Pinned(s, u, steps, x, TWO32 - 1)
    ensures Reached(s', u.nbuf, u.n, u.threads, steps + 2) && Inv(s') && Enabled(s', 0) && !Room(s', 0)
  {
    hide Reached, Partition, TransitOk, LocksOk, Home;
    var k := Home(s.bufs[x].blockno, |s.rings|);
    OneMore(s, u, steps, 0, CallOp(Pin, x));
    var s1 := Next(s, 0, CallOp(Pin, x));
    OneMore(s1, u, steps + 1, 0, Step);
    s' := Own(s1, 0);
    assert s'.pcs[0] == OpDo(Pin, x, k);
    ReachedInv(s', u, steps + 2);
  }
}
