/** The hashed buffer cache: what its operations compute, as functions on a
    value, and the class that computes it on linked buffers. */
module Bcache {
  import opened Rows
  import opened BufRings

  const TWO32: int := 0x1_0000_0000
  type U32 = x: int | 0 <= x < TWO32

  // The bookkeeping fields of a struct buf; `sleeper` is the process holding
  // its sleep lock, 0 for none.
  datatype Buf = Buf(dev: U32, blockno: U32, refcnt: U32, valid: bool, sleeper: nat)

  datatype Key = Key(dev: U32, blockno: U32)

  function KeyOf(b: Buf): Key { Key(b.dev, b.blockno) }

  // No two buffers carry the same block of a real device.
  ghost predicate UniqueKeys(bufs: seq<Buf>) {
    forall b, b' | 0 <= b < |bufs| && 0 <= b' < |bufs| ::
      KeyOf(bufs[b]) == KeyOf(bufs[b']) && bufs[b].dev != 0 ==> b == b'
  }

  // C's unsigned increment and decrement.
  function Inc(x: U32): U32 { (x + 1) % TWO32 }
  function Dec(x: U32): U32 { (x - 1) % TWO32 }

  datatype Cache = Cache(rings: Rings, bufs: seq<Buf>)

  ghost predicate WellFormed(c: Cache) {
    0 < |c.rings| < 0x8000_0000 && Partition(c.rings, |c.bufs|, {})
  }

  /* What bget looks for. */

  predicate HasKey(b: Buf, dev: U32, blockno: U32) {
    b.dev == dev && b.blockno == blockno
  }

  function Matching(bufs: seq<Buf>, dev: U32, blockno: U32): set<nat> {
    set b | 0 <= b < |bufs| && HasKey(bufs[b], dev, blockno) :: b
  }

  function Free(bufs: seq<Buf>): set<nat> {
    set b | 0 <= b < |bufs| && bufs[b].refcnt == 0 :: b
  }

  // Where a walk along next first meets s; |ring| if it never does.
  function FirstIn(ring: seq<nat>, s: set<nat>): (i: nat)
    ensures i <= |ring|
    ensures forall j | 0 <= j < i :: ring[j] !in s
    ensures i < |ring| ==> ring[i] in s
  {
    if ring == [] || ring[0] in s then 0 else 1 + FirstIn(ring[1..], s)
  }

  // Where a walk along prev first meets s; -1 if it never does.
  function LastIn(ring: seq<nat>, s: set<nat>): (i: int)
    ensures -1 <= i < |ring|
    ensures forall j | i < j < |ring| :: ring[j] !in s
    ensures i >= 0 ==> ring[i] in s
  {
    if ring == [] || ring[|ring| - 1] in s then |ring| - 1 else LastIn(ring[..|ring| - 1], s)
  }

  lemma FirstInIs(ring: seq<nat>, s: set<nat>, i: nat)
    requires i <= |ring| && (i < |ring| ==> ring[i] in s)
    requires forall j | 0 <= j < i :: ring[j] !in s
    ensures FirstIn(ring, s) == i
  {
  }

  lemma LastInIs(ring: seq<nat>, s: set<nat>, i: int)
    requires -1 <= i < |ring| && (i >= 0 ==> ring[i] in s)
    requires forall j | i < j < |ring| :: ring[j] !in s
    ensures LastIn(ring, s) == i
  {
  }

  // (blockno + i) % NBUCKETS on 32-bit unsigned operands.
  function Probe(blockno: U32, i: nat, n: nat): (k: nat)
    requires n > 0
    ensures k < n
  {
    (blockno + i) % TWO32 % n
  }

  // The first of the probes i, i+1, ... whose ring has a free buffer.
  function FirstProbe(c: Cache, blockno: U32, i: nat): (p: nat)
    requires 1 <= i <= |c.rings|
    ensures i <= p <= |c.rings|
    ensures p < |c.rings| ==> var ring := c.rings[Probe(blockno, p, |c.rings|)];
                              FirstIn(ring, Free(c.bufs)) < |ring|
    decreases |c.rings| - i
  {
    if i == |c.rings| then i
    else
      var ring := c.rings[Probe(blockno, i, |c.rings|)];
      if FirstIn(ring, Free(c.bufs)) < |ring| then i else FirstProbe(c, blockno, i + 1)
  }

  lemma {:induction false} FirstProbeSkips(c: Cache, blockno: U32, i: nat, q: nat)
    requires 1 <= i <= |c.rings| && i <= q < FirstProbe(c, blockno, i)
    ensures forall b | b in c.rings[Probe(blockno, q, |c.rings|)] :: b !in Free(c.bufs)
    decreases q - i
  {
    if i < q {
      FirstProbeSkips(c, blockno, i + 1, q);
    }
  }

  datatype Choice = Hit(k: nat, i: nat) | Recycle(k: nat, i: nat) | Steal(k: nat, i: nat) | NoBuffers

  // The buffer bget settles on, as a position on a ring.
  ghost function Choose(c: Cache, dev: U32, blockno: U32): (ch: Choice)
    requires |c.rings| > 0
    ensures !ch.NoBuffers? ==> ch.k < |c.rings| && ch.i < |c.rings[ch.k]|
  {
    var n := |c.rings|;
    var home := blockno % n;
    var i := FirstIn(c.rings[home], Matching(c.bufs, dev, blockno));
    var j := LastIn(c.rings[home], Free(c.bufs));
    var p := FirstProbe(c, blockno, 1);
    if i < |c.rings[home]| then Hit(home, i)
    else if j >= 0 then Recycle(home, j)
    else if p < n then
      var k := Probe(blockno, p, n);
      Steal(k, FirstIn(c.rings[k], Free(c.bufs)))
    else NoBuffers
  }

  ghost function Chosen(c: Cache, ch: Choice): nat
    requires !ch.NoBuffers? && ch.k < |c.rings| && ch.i < |c.rings[ch.k]|
  {
    c.rings[ch.k][ch.i]
  }

  // What bget does to the cache, up to acquiring the buffer's sleep lock.
  ghost function Get(c: Cache, dev: U32, blockno: U32): Cache
    requires WellFormed(c)
  {
    var ch := Choose(c, dev, blockno);
    if ch.NoBuffers? then c
    else
      var b := Chosen(c, ch);
      assert OnlyBuffers(c.rings[ch.k], |c.bufs|, {});
      if ch.Hit? then c.(bufs := c.bufs[b := c.bufs[b].(refcnt := Inc(c.bufs[b].refcnt))])
      else
        var bufs := c.bufs[b := Buf(dev, blockno, 1, false, c.bufs[b].sleeper)];
        Cache(if ch.Recycle? then c.rings else Move(c.rings, ch.k, ch.i, blockno % |c.rings|), bufs)
  }

  // What brelse does when the caller holds the sleep lock of b.
  ghost function Release(c: Cache, b: nat): Cache
    requires WellFormed(c) && b < |c.bufs|
  {
    var buf := c.bufs[b].(refcnt := Dec(c.bufs[b].refcnt), sleeper := 0);
    var k := RingOf(c.rings, b);
    Cache(if buf.refcnt == 0 then Move(c.rings, k, PosOf(c.rings[k], b), buf.blockno % |c.rings|) else c.rings,
          c.bufs[b := buf])
  }

  function Pin(c: Cache, b: nat): Cache
    requires b < |c.bufs|
  {
    c.(bufs := c.bufs[b := c.bufs[b].(refcnt := Inc(c.bufs[b].refcnt))])
  }

  function Unpin(c: Cache, b: nat): Cache
    requires b < |c.bufs|
  {
    c.(bufs := c.bufs[b := c.bufs[b].(refcnt := Dec(c.bufs[b].refcnt))])
  }

  // The rings binit builds out of the first n buffers.
  function InitRings(n: nat, nbuckets: nat): (r: Rings)
    requires nbuckets > 0
    ensures |r| == nbuckets
  {
    if n == 0 then seq(nbuckets, _ => []) else Push(InitRings(n - 1, nbuckets), (n - 1) % nbuckets, n - 1)
  }

  // Each buffer goes to the ring of its number, the later ones in front.
  lemma {:induction false} InitRingsPlace(n: nat, nbuckets: nat)
    requires nbuckets > 0
    ensures forall b: nat | b < n :: b in InitRings(n, nbuckets)[b % nbuckets]
    ensures forall k, i | 0 <= k < nbuckets && 0 <= i < |InitRings(n, nbuckets)[k]| ::
              InitRings(n, nbuckets)[k][i] < n && InitRings(n, nbuckets)[k][i] % nbuckets == k
    ensures forall k, i, j | 0 <= k < nbuckets && 0 <= i < j < |InitRings(n, nbuckets)[k]| ::
              InitRings(n, nbuckets)[k][i] > InitRings(n, nbuckets)[k][j]
  {
    if n > 0 {
      InitRingsPlace(n - 1, nbuckets);
      var rings, home := InitRings(n - 1, nbuckets), (n - 1) % nbuckets;
      assert InitRings(n, nbuckets) == rings[home := [n - 1] + rings[home]];
      forall b: nat | b < n
        ensures b in InitRings(n, nbuckets)[b % nbuckets]
      {
        assert b == n - 1 ==> ([n - 1] + rings[home])[0] == b;
        if b < n - 1 {
          assert b in rings[b % nbuckets];
        }
      }
    }
  }

  ghost function From(lo: nat, hi: nat): (s: set<nat>)
    ensures forall b: nat :: b in s <==> lo <= b < hi
    decreases hi - lo
  {
    if lo >= hi then {} else {lo} + From(lo + 1, hi)
  }

  const ZERO_BUF := Buf(0, 0, 0, false, 0)

  lemma GetWellFormed(c: Cache, dev: U32, blockno: U32)
    requires WellFormed(c)
    ensures WellFormed(Get(c, dev, blockno))
    ensures |Get(c, dev, blockno).rings| == |c.rings| && |Get(c, dev, blockno).bufs| == |c.bufs|
  {
    var ch := Choose(c, dev, blockno);
    if ch.Steal? {
      MovePartition(c.rings, |c.bufs|, {}, ch.k, ch.i, blockno % |c.rings|);
    }
  }

  lemma ReleaseWellFormed(c: Cache, b: nat)
    requires WellFormed(c) && b < |c.bufs|
    ensures WellFormed(Release(c, b))
    ensures |Release(c, b).rings| == |c.rings| && |Release(c, b).bufs| == |c.bufs|
  {
    var k := RingOf(c.rings, b);
    MovePartition(c.rings, |c.bufs|, {}, k, PosOf(c.rings[k], b), c.bufs[b].blockno % |c.rings|);
  }

  // All buffers on the ring from position lo to hi are in use.
  ghost predicate InUse(c: Cache, k: nat, lo: int, hi: int)
    requires k < |c.rings|
  {
    forall j | 0 <= j < |c.rings[k]| && lo <= j < hi :: c.rings[k][j] < |c.bufs| && c.bufs[c.rings[k][j]].refcnt != 0
  }

  // No buffer on the ring up to position hi holds the block.
  ghost predicate Lacks(c: Cache, k: nat, hi: int, dev: U32, blockno: U32)
    requires k < |c.rings|
  {
    forall j | 0 <= j < |c.rings[k]| && j < hi ::
      var b := c.rings[k][j]; b < |c.bufs| && !(c.bufs[b].dev == dev && c.bufs[b].blockno == blockno)
  }

  // What bget settles on: the first buffer on the own ring with the block; without
  // one, the last one there not in use; without one, the first one not in use on the
  // first of the probed rings that has any. p is how many rings are probed in vain.
  lemma ChoiceMeans(c: Cache, dev: U32, blockno: U32) returns (p: nat)
    requires WellFormed(c)
    ensures var n, ch, home := |c.rings|, Choose(c, dev, blockno), blockno % |c.rings|;
            && (!ch.NoBuffers? ==> ch.k < n && ch.i < |c.rings[ch.k]| && c.rings[ch.k][ch.i] < |c.bufs|)
            && (ch.Hit? ==> && ch.k == home && Lacks(c, home, ch.i, dev, blockno)
                            && var x := c.bufs[c.rings[ch.k][ch.i]]; x.dev == dev && x.blockno == blockno)
            && (!ch.Hit? ==> Lacks(c, home, |c.rings[home]|, dev, blockno))
            && (ch.Recycle? ==> && ch.k == home && InUse(c, home, ch.i + 1, |c.rings[home]|)
                                && c.bufs[c.rings[ch.k][ch.i]].refcnt == 0)
            && (ch.Steal? || ch.NoBuffers? ==>
                  && InUse(c, home, 0, |c.rings[home]|) && p < n
                  && forall q: nat | 0 < q <= p :: var k := Probe(blockno, q, n); InUse(c, k, 0, |c.rings[k]|))
            && (ch.Steal? ==> && p + 1 < n && ch.k == Probe(blockno, p + 1, n) && InUse(c, ch.k, 0, ch.i)
                              && c.bufs[c.rings[ch.k][ch.i]].refcnt == 0)
            && (ch.NoBuffers? ==> p + 1 == n)
  {
    var n, ch, home := |c.rings|, Choose(c, dev, blockno), blockno % |c.rings|;
    p := FirstProbe(c, blockno, 1) - 1;
    forall k, j | 0 <= k < n && 0 <= j < |c.rings[k]|
      ensures c.rings[k][j] < |c.bufs|
    {
      assert OnlyBuffers(c.rings[k], |c.bufs|, {}) && c.rings[k][j] in c.rings[k];
    }
    hide WellFormed, Probe;
    forall q: nat | 0 < q <= p
      ensures var k := Probe(blockno, q, n); InUse(c, k, 0, |c.rings[k]|)
    {
      FirstProbeSkips(c, blockno, 1, q);
      var k := Probe(blockno, q, n);
      assert forall j | 0 <= j < |c.rings[k]| :: c.rings[k][j] in c.rings[k];
    }
  }

  // What bget then does: count one more reference, or give the buffer the block's key,
  // and if it was stolen put it in front of the block's own ring.
  lemma GetMeans(c: Cache, dev: U32, blockno: U32)
    requires WellFormed(c) && !Choose(c, dev, blockno).NoBuffers?
    ensures var ch, c', home := Choose(c, dev, blockno), Get(c, dev, blockno), blockno % |c.rings|;
            var ring := c.rings[ch.k];
            var b := ring[ch.i];
            && b < |c.bufs| && |c'.rings| == |c.rings|
            && (ch.Hit? ==> c'.bufs == c.bufs[b := c.bufs[b].(refcnt := (c.bufs[b].refcnt + 1) % 0x1_0000_0000)])
            && (!ch.Hit? ==> c'.bufs == c.bufs[b := Buf(dev, blockno, 1, false, c.bufs[b].sleeper)])
            && (!ch.Steal? ==> c'.rings == c.rings)
            && (ch.Steal? && ch.k != home ==>
                  && c'.rings[ch.k] == ring[..ch.i] + ring[ch.i + 1..] && c'.rings[home] == [b] + c.rings[home]
                  && forall k | 0 <= k < |c.rings| && k != ch.k && k != home :: c'.rings[k] == c.rings[k])
  {
    var ch := Choose(c, dev, blockno);
    assert OnlyBuffers(c.rings[ch.k], |c.bufs|, {});
    hide Choose, Partition;
  }

  // What brelse does: one reference less, the sleep lock given up; at the last one the
  // buffer goes to the front of its ring.
  lemma ReleaseMeans(c: Cache, b: nat, k: nat, i: nat)
    requires WellFormed(c) && b < |c.bufs| && k < |c.rings| && i < |c.rings[k]| && c.rings[k][i] == b
    requires k == c.bufs[b].blockno % |c.rings|
    ensures var count := if c.bufs[b].refcnt == 0 then 0xffff_ffff else c.bufs[b].refcnt - 1;
            var c', ring := Release(c, b), c.rings[k];
            && c'.bufs == c.bufs[b := c.bufs[b].(refcnt := count, sleeper := 0)]
            && c'.rings == if count != 0 then c.rings else c.rings[k := [b] + (ring[..i] + ring[i + 1..])]
  {
    assert b in c.rings[k];
    RingOfUnique(c.rings, b, k);
    PosOfUnique(c.rings, b, k, i);
    hide Partition, OnSomeRing;
  }

  lemma PosOfUnique(rings: Rings, b: nat, k: nat, i: nat)
    requires NoDup(rings) && k < |rings| && i < |rings[k]| && rings[k][i] == b
    ensures b in rings[k] && PosOf(rings[k], b) == i
  {
  }

  datatype Outcome = Returned(b: nat) | Panicked

  class Bcache {
    const nbuf: nat
    const nbuckets: nat
    const buf: array<Buf>
    const next: array<nat>
    const prev: array<nat>
    ghost var rings: Rings

    // The links implement `rings`, with the buffers in transit on no ring.
    ghost predicate Links(transit: set<nat>)
      reads this, buf, next, prev
    {
      && 0 < nbuckets < 0x8000_0000
      && buf.Length == nbuf
      && next != prev
      && |rings| == nbuckets
      && Linked(next[..], prev[..], nbuf, rings)
      && Partition(rings, nbuf, transit)
    }

    ghost predicate Valid()
      reads this, buf, next, prev
    {
      Links({})
    }

    ghost function Contents(): (c: Cache)
      reads this, buf, next, prev
      requires Valid()
      ensures WellFormed(c)
    {
      Cache(rings, buf[..])
    }

    // Statically zeroed memory, then binit.
    constructor (nbuf: nat, nbuckets: nat)
      requires 0 < nbuckets < 0x8000_0000
      ensures Valid() && fresh(buf) && fresh(next) && fresh(prev)
      ensures this.nbuf == nbuf && this.nbuckets == nbuckets
      ensures Contents() == Cache(InitRings(nbuf, nbuckets), seq(nbuf, _ => ZERO_BUF))
      ensures forall b | 0 <= b < nbuf :: b in rings[b % nbuckets] && buf[b] == Buf(0, 0, 0, false, 0)
      ensures forall k, i, j | 0 <= k < nbuckets && 0 <= i < j < |rings[k]| :: rings[k][i] > rings[k][j]
    {
      this.nbuf, this.nbuckets := nbuf, nbuckets;
      buf := new Buf[nbuf](_ => ZERO_BUF);
      next := new nat[nbuf + nbuckets](_ => 0);
      prev := new nat[nbuf + nbuckets](_ => 0);
      new;
      assert buf[..] == seq(nbuf, _ => ZERO_BUF);
      Binit();
    }

    method Binit()
      requires 0 < nbuckets < 0x8000_0000 && buf.Length == nbuf && next != prev
      requires next.Length == prev.Length == nbuf + nbuckets
      modifies this`rings, next, prev
      ensures Valid() && rings == InitRings(nbuf, nbuckets)
      ensures forall b: nat | b < nbuf :: b in rings[b % nbuckets]
      ensures forall k, i, j | 0 <= k < nbuckets && 0 <= i < j < |rings[k]| :: rings[k][i] > rings[k][j]
    {
      for i := 0 to nbuckets
        invariant forall h | nbuf <= h < nbuf + i :: next[h] == h == prev[h]
      {
        prev[nbuf + i] := nbuf + i;
        next[nbuf + i] := nbuf + i;
      }
      rings := InitRings(0, nbuckets);
      EmptyRings();
      for i := 0 to nbuf
        invariant rings == InitRings(i, nbuckets)
        invariant Links(From(i, nbuf))
      {
        PushFront(i % nbuckets, i, From(i, nbuf));
        assert From(i, nbuf) - {i} == From(i + 1, nbuf);
      }
      InitRingsPlace(nbuf, nbuckets);
    }

    lemma EmptyRings()
      requires 0 < nbuckets < 0x8000_0000 && buf.Length == nbuf && next != prev
      requires next.Length == prev.Length == nbuf + nbuckets
      requires forall h | nbuf <= h < nbuf + nbuckets :: next[h] == h == prev[h]
      requires rings == InitRings(0, nbuckets)
      ensures Links(From(0, nbuf))
    {
    }

    // Unlinks b, the i-th buffer of ring k.
    method Detach(b: nat, ghost k: nat, ghost i: nat)
      requires Valid() && k < nbuckets && i < |rings[k]| && rings[k][i] == b
      modifies this`rings, next, prev
      ensures Links({b}) && rings == Unlink(old(rings), k, i)
    {
      LinkedUnlink(next[..], prev[..], nbuf, rings, {}, k, i);
      UnlinkPartition(rings, nbuf, {}, k, i);
      ghost var nx: seq<nat>, pv: seq<nat> := next[..], prev[..];
      next[prev[b]] := next[b];
      prev[next[b]] := prev[b];
      rings := Unlink(rings, k, i);
      assert next[..] == nx[pv[b] := nx[b]] && prev[..] == pv[nx[b] := pv[b]];
      assert {} + {b} == {b};
    }

    // Links b in at the front of ring k.
    method PushFront(k: nat, b: nat, ghost transit: set<nat>)
      requires Links(transit) && k < nbuckets && b < nbuf && b in transit
      modifies this`rings, next, prev
      ensures Links(transit - {b}) && rings == Push(old(rings), k, b)
    {
      LinkedPush(next[..], prev[..], nbuf, rings, transit, k, b);
      PushPartition(rings, nbuf, transit, k, b);
      hide Linked, Partition;
      ghost var nx: seq<nat>, pv: seq<nat> := next[..], prev[..];
      var h := nbuf + k;
      next[b] := next[h];
      prev[b] := h;
      prev[next[h]] := b;
      next[h] := b;
      assert next[..] == nx[b := nx[h]][h := b] && prev[..] == pv[b := h][nx[h] := b];
      rings := Push(rings, k, b);
    }

    // One step along next from position i - 1 of ring k (its head for i == 0).
    lemma Forward(k: nat, i: nat)
      requires Valid() && k < nbuckets && i <= |rings[k]|
      ensures next.Length == nbuf + nbuckets && (i > 0 ==> rings[k][i - 1] < nbuf)
      ensures next[if i == 0 then nbuf + k else rings[k][i - 1]] == if i == |rings[k]| then nbuf + k else rings[k][i]
    {
      var c := Cycle(nbuf + k, rings[k]);
      assert OnlyBuffers(rings[k], nbuf, {});
      assert i > 0 ==> rings[k][i - 1] in rings[k];
      assert RingLinked(next[..], prev[..], nbuf + k, rings[k]);
      assert next[..][c[i]] == c[i + 1];
    }

    lemma Backward(k: nat, i: int)
      requires Valid() && k < nbuckets && -1 <= i < |rings[k]|
      ensures prev.Length == nbuf + nbuckets && (i < |rings[k]| - 1 ==> rings[k][i + 1] < nbuf)
      ensures prev[if i == |rings[k]| - 1 then nbuf + k else rings[k][i + 1]]
           == if i == -1 then nbuf + k else rings[k][i]
    {
      var c := Cycle(nbuf + k, rings[k]);
      assert OnlyBuffers(rings[k], nbuf, {});
      assert RingLinked(next[..], prev[..], nbuf + k, rings[k]);
      assert i < |rings[k]| - 1 ==> rings[k][i + 1] in rings[k];
      assert prev[..][c[i + 2]] == c[i + 1];
    }

    lemma OnRing(k: nat)
      requires Valid() && k < nbuckets
      ensures next.Length == prev.Length == nbuf + nbuckets && |rings| == nbuckets && buf.Length == nbuf
      ensures forall j | 0 <= j < |rings[k]| :: rings[k][j] < nbuf
    {
      assert OnlyBuffers(rings[k], nbuf, {});
      assert forall j | 0 <= j < |rings[k]| :: rings[k][j] in rings[k];
    }

    // The walk along next from the head of ring k to the first buffer holding
    // the block; found is false when it comes back to the head.
    method FindKey(k: nat, dev: U32, blockno: U32) returns (found: bool, b: nat)
      requires Valid() && k < nbuckets
      ensures var ring, s := rings[k], Matching(buf[..], dev, blockno);
              && found == (FirstIn(ring, s) < |ring|)
              && (found ==> b == ring[FirstIn(ring, s)] && b < nbuf)
    {
      hide Linked, Partition, FirstIn;
      OnRing(k);
      ghost var ring, s := rings[k], Matching(buf[..], dev, blockno);
      ghost var i := 0;
      Forward(k, 0);
      b := next[nbuf + k];
      while b != nbuf + k
        invariant 0 <= i <= |ring| && b == if i == |ring| then nbuf + k else ring[i]
        invariant forall j | 0 <= j < i :: ring[j] !in s
        decreases |ring| - i
      {
        if HasKey(buf[b], dev, blockno) {
          FirstInIs(ring, s, i);
          return true, b;
        }
        Forward(k, i + 1);
        b := next[b];
        i := i + 1;
      }
      FirstInIs(ring, s, i);
      found := false;
    }

    // The same walk for the first buffer nobody references.
    method FindFree(k: nat) returns (found: bool, b: nat)
      requires Valid() && k < nbuckets
      ensures var ring, s := rings[k], Free(buf[..]);
              && found == (FirstIn(ring, s) < |ring|)
              && (found ==> b == ring[FirstIn(ring, s)] && b < nbuf)
    {
      hide Linked, Partition, FirstIn;
      OnRing(k);
      ghost var ring, s := rings[k], Free(buf[..]);
      ghost var i := 0;
      Forward(k, 0);
      b := next[nbuf + k];
      while b != nbuf + k
        invariant 0 <= i <= |ring| && b == if i == |ring| then nbuf + k else ring[i]
        invariant forall j | 0 <= j < i :: ring[j] !in s
        decreases |ring| - i
      {
        if buf[b].refcnt == 0 {
          FirstInIs(ring, s, i);
          return true, b;
        }
        Forward(k, i + 1);
        b := next[b];
        i := i + 1;
      }
      FirstInIs(ring, s, i);
      found := false;
    }

    // The walk along prev, least recently used first.
    method FindOldestFree(k: nat) returns (found: bool, b: nat)
      requires Valid() && k < nbuckets
      ensures var ring, s := rings[k], Free(buf[..]);
              && found == (LastIn(ring, s) >= 0)
              && (found ==> b == ring[LastIn(ring, s)] && b < nbuf)
    {
      hide Linked, Partition, LastIn;
      OnRing(k);
      ghost var ring, s := rings[k], Free(buf[..]);
      ghost var i := |ring| - 1;
      Backward(k, i);
      b := prev[nbuf + k];
      while b != nbuf + k
        invariant -1 <= i < |ring| && b == if i == -1 then nbuf + k else ring[i]
        invariant forall j | i < j < |ring| :: ring[j] !in s
        decreases i
      {
        if buf[b].refcnt == 0 {
          LastInIs(ring, s, i);
          return true, b;
        }
        Backward(k, i - 1);
        b := prev[b];
        i := i - 1;
      }
      LastInIs(ring, s, -1);
      found := false;
    }

    // bget as one atomic operation, up to acquiring the buffer's sleep lock.
    method Bget(dev: U32, blockno: U32) returns (r: Outcome)
      requires Valid()
      modifies this`rings, buf, next, prev
      ensures Valid() && Contents() == Get(old(Contents()), dev, blockno)
      ensures var c := old(Contents()); var ch := Choose(c, dev, blockno);
              r == if ch.NoBuffers? then Panicked else Returned(Chosen(c, ch))
    {
      ghost var c := Contents();
      ghost var ch := Choose(c, dev, blockno);
      var home := blockno % nbuckets;
      var found, b := FindKey(home, dev, blockno);
      if found {
        buf[b] := buf[b].(refcnt := Inc(buf[b].refcnt));
        return Returned(b);
      }
      found, b := FindOldestFree(home);
      if found {
        buf[b] := Buf(dev, blockno, 1, false, buf[b].sleeper);
        return Returned(b);
      }
      var k;
      found, b, k := FindVictim(blockno);
      if found {
        Rehome(b, k, ch.i, dev, blockno);
        return Returned(b);
      }
      r := Panicked;
    }

    // The steal loop's search of the other buckets.
    method FindVictim(blockno: U32) returns (found: bool, b: nat, k: nat)
      requires Valid()
      ensures var p := FirstProbe(Contents(), blockno, 1);
              && found == (p < nbuckets)
              && (found ==> k == Probe(blockno, p, nbuckets)
                            && b == rings[k][FirstIn(rings[k], Free(buf[..]))] && b < nbuf)
    {
      ghost var c := Contents();
      found, b, k := false, 0, 0;
      var i := 1;
      while i < nbuckets
        invariant 1 <= i <= nbuckets
        invariant FirstProbe(c, blockno, 1) == FirstProbe(c, blockno, i)
      {
        var bucket := Probe(blockno, i, nbuckets);
        found, b := FindFree(bucket);
        if found {
          k := bucket;
          return;
        }
        i := i + 1;
      }
    }

    // Re-keys b, unlinks it from ring k and links it into the block's own ring.
    method Rehome(b: nat, ghost k: nat, ghost i: nat, dev: U32, blockno: U32)
      requires Valid() && b < nbuf && k < nbuckets && i < |rings[k]| && rings[k][i] == b
      modifies this`rings, buf, next, prev
      ensures Valid()
      ensures rings == Move(old(rings), k, i, blockno % nbuckets)
      ensures buf[..] == old(buf[..])[b := Buf(dev, blockno, 1, false, old(buf[b]).sleeper)]
    {
      buf[b] := Buf(dev, blockno, 1, false, buf[b].sleeper);
      Detach(b, k, i);
      PushFront(blockno % nbuckets, b, {b});
      assert {b} - {b} == {};
    }

    // The last step of bget, enabled when no process holds the sleep lock.
    method AcquireSleep(b: nat, pid: nat)
      requires Valid() && b < nbuf && pid != 0 && buf[b].sleeper == 0
      modifies buf
      ensures Valid()
      ensures Contents() == old(Contents()).(bufs := old(buf[..])[b := old(buf[b]).(sleeper := pid)])
    {
      buf[b] := buf[b].(sleeper := pid);
    }

    method Brelse(b: nat, pid: nat) returns (r: Outcome)
      requires Valid() && b < nbuf && pid != 0
      modifies this`rings, buf, next, prev
      ensures Valid()
      ensures r.Panicked? <==> old(buf[b]).sleeper != pid
      ensures Contents() == if r.Panicked? then old(Contents()) else Release(old(Contents()), b)
    {
      if buf[b].sleeper != pid {
        return Panicked;
      }
      ghost var k := RingOf(rings, b);
      ghost var i := PosOf(rings[k], b);
      var num := buf[b].blockno % nbuckets;
      buf[b] := buf[b].(refcnt := Dec(buf[b].refcnt), sleeper := 0);
      if buf[b].refcnt == 0 {
        Detach(b, k, i);
        PushFront(num, b, {b});
        assert {b} - {b} == {};
      }
      r := Returned(b);
    }

    method Bpin(b: nat)
      requires Valid() && b < nbuf
      modifies buf
      ensures Valid()
      ensures Contents() == Pin(old(Contents()), b)
      ensures buf[b].refcnt == (if old(buf[b]).refcnt == 0xffff_ffff then 0 else old(buf[b]).refcnt + 1)
    {
      buf[b] := buf[b].(refcnt := Inc(buf[b].refcnt));
    }

    method Bunpin(b: nat)
      requires Valid() && b < nbuf
      modifies buf
      ensures Valid()
      ensures Contents() == Unpin(old(Contents()), b)
      ensures buf[b].refcnt == (if old(buf[b]).refcnt == 0 then 0xffff_ffff else old(buf[b]).refcnt - 1)
    {
      buf[b] := buf[b].(refcnt := Dec(buf[b].refcnt));
    }
  }
}
