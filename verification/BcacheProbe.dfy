/** The buckets bget's steal loop visits, in 32-bit unsigned arithmetic. */
module BcacheProbe {
  import opened BufRings
  import opened Bcache
  import opened Residues

  // The own bucket and the probes i = 1 .. n-1 together reach every bucket.
  ghost predicate ReachesAll(blockno: U32, n: nat)
    requires n > 0
  {
    forall k | 0 <= k < n :: Reaches(blockno, n, k)
  }

  ghost predicate Reaches(blockno: U32, n: nat, k: nat)
    requires n > 0
  {
    exists i: nat | i < n :: Probe(blockno, i, n) == k
  }

  lemma ProbeHome(blockno: U32, n: nat)
    requires n > 0
    ensures Probe(blockno, 0, n) == blockno % n
  {
  }

  // The sums blockno + i do not wrap, or wrapping does not shift the residue.
  predicate ProbesAligned(blockno: U32, n: nat)
    requires n > 0
  {
    blockno + n <= TWO32 || TWO32 % n == 0
  }

  // Before the sum wraps, probe i is i further round from the own bucket ...
  lemma ProbeBefore(blockno: U32, n: nat, i: nat)
    requires i < n && blockno + i < TWO32
    ensures Probe(blockno, i, n) == Wrap(blockno % n + i - n, n)
  {
    var q := blockno / n;
    assert (q + 1) * n == q * n + n;
    ModNear(blockno + i, n, q + 1, blockno % n + i - n);
  }

  // ... and from the wrap on, the probes start over at bucket 0.
  lemma ProbeAfter(blockno: U32, n: nat, i: nat)
    requires i < n <= TWO32 <= blockno + i
    ensures Probe(blockno, i, n) == blockno + i - TWO32
  {
    var s := blockno + i - TWO32;
    assert (blockno + i) % TWO32 == s;
    ModNear(s, n, 0, s);
  }

  lemma ProbeValue(blockno: U32, n: nat, i: nat)
    requires i < n <= TWO32
    ensures Probe(blockno, i, n) ==
            if blockno + i < TWO32 then Wrap(blockno % n + i - n, n) else blockno + i - TWO32
  {
    if blockno + i < TWO32 {
      ProbeBefore(blockno, n, i);
    } else {
      ProbeAfter(blockno, n, i);
    }
  }

  // The own bucket of a block number within n of 2^32.
  lemma HomeNearWrap(blockno: U32, n: nat)
    requires 0 < n && TWO32 - blockno <= n
    ensures blockno % n == Wrap(TWO32 % n - (TWO32 - blockno), n)
  {
    ModNear(blockno, n, TWO32 / n, TWO32 % n - (TWO32 - blockno));
  }

  lemma AlignedReachesAll(blockno: U32, n: nat)
    requires 0 < n <= TWO32 && ProbesAligned(blockno, n)
    ensures ReachesAll(blockno, n)
  {
    var h := blockno % n;
    forall k | 0 <= k < n
      ensures Reaches(blockno, n, k)
    {
      var i := Wrap(k - h, n);
      if blockno + n <= TWO32 || blockno + i < TWO32 {
        ProbeValue(blockno, n, i);
        assert Probe(blockno, i, n) == k;
      } else {
        // 2^32 is a multiple of n, so wrapping keeps the residue
        HomeNearWrap(blockno, n);
        ProbeValue(blockno, n, i);
        assert Probe(blockno, i, n) == k;
      }
    }
  }

  // When the sums wrap off a multiple of n, some bucket is never probed.
  lemma MisalignedMisses(blockno: U32, n: nat) returns (k: nat)
    requires 0 < n <= TWO32 && !ProbesAligned(blockno, n)
    ensures 0 < k < n && !Reaches(blockno, n, k)
  {
    var w, rho := TWO32 - blockno, TWO32 % n;
    k := if rho + w <= n then n - w else rho;
    HomeNearWrap(blockno, n);
    forall i: nat | i < n
      ensures Probe(blockno, i, n) != k
    {
      ProbeValue(blockno, n, i);
    }
  }

  lemma ProbesReachAllIff(blockno: U32, n: nat)
    requires 0 < n <= TWO32
    ensures ReachesAll(blockno, n) <==> ProbesAligned(blockno, n)
  {
    if ProbesAligned(blockno, n) {
      AlignedReachesAll(blockno, n);
    } else {
      var k := MisalignedMisses(blockno, n);
    }
  }

  // ... and then each exactly once: the loop never comes back to a bucket.
  lemma AlignedProbesDistinct(blockno: U32, n: nat, i: nat, j: nat)
    requires i < j < n <= TWO32 && ProbesAligned(blockno, n)
    ensures Probe(blockno, i, n) != Probe(blockno, j, n)
  {
    ProbeValue(blockno, n, i);
    ProbeValue(blockno, n, j);
    if blockno + j >= TWO32 {
      HomeNearWrap(blockno, n);
    }
  }

  // With 13 buckets the last block numbers are misaligned.
  lemma ThirteenBucketsMisaligned()
    ensures forall blockno: U32 :: ProbesAligned(blockno, 13) <==> blockno <= TWO32 - 13
  {
  }
}
