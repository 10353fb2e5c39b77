/** The circular doubly linked rings of the buffer cache, as values.

    Nodes are numbered: 0 .. nbuf-1 are the buffers, nbuf + k is the head of
    bucket k. `next` and `prev` are the two link fields of all nodes. A family
    of rings lists, for each bucket, its buffers from head.next to head.prev. */
module BufRings {
  import opened Rows

  type Rings = seq<seq<nat>>

  // The node sequence of a ring, head first and head again at the end.
  function Cycle(h: nat, ring: seq<nat>): seq<nat> {
    [h] + ring + [h]
  }

  // next and prev are mutually inverse along the ring and close it at its head.
  ghost predicate RingLinked(next: seq<nat>, prev: seq<nat>, h: nat, ring: seq<nat>) {
    var c := Cycle(h, ring);
    && |next| == |prev|
    && h < |next|
    && (forall b | b in ring :: b < |next|)
    && (forall i | 0 <= i < |c| :: c[i] == h || c[i] in ring)
    && (forall i, j | 0 <= i < j < |c| && j == i + 1 :: next[c[i]] == c[j] && prev[c[j]] == c[i])
  }

  ghost predicate Linked(next: seq<nat>, prev: seq<nat>, nbuf: nat, rings: Rings) {
    && |next| == |prev| == nbuf + |rings|
    && forall k | 0 <= k < |rings| :: RingLinked(next, prev, nbuf + k, rings[k])
  }

  ghost predicate OnSomeRing(rings: Rings, b: nat) {
    exists k | 0 <= k < |rings| :: b in rings[k]
  }

  // Every buffer except those in transit is on exactly one ring, once, and
  // nothing else is on a ring.
  ghost predicate Partition(rings: Rings, nbuf: nat, transit: set<nat>) {
    && NoDup(rings)
    && (forall b | b in transit :: b < nbuf)
    && (forall k | 0 <= k < |rings| :: OnlyBuffers(rings[k], nbuf, transit))
    && (forall b: nat | b < nbuf && b !in transit :: OnSomeRing(rings, b))
  }

  ghost predicate OnlyBuffers(ring: seq<nat>, nbuf: nat, transit: set<nat>) {
    forall b | b in ring :: b < nbuf && b !in transit
  }

  ghost function RingOf(rings: Rings, b: nat): (k: nat)
    requires OnSomeRing(rings, b)
    ensures k < |rings| && b in rings[k]
  {
    var k: nat :| k < |rings| && b in rings[k];
    k
  }

  lemma RingOfUnique(rings: Rings, b: nat, k: nat)
    requires NoDup(rings) && k < |rings| && b in rings[k]
    ensures OnSomeRing(rings, b) && RingOf(rings, b) == k
  {
  }

  // Ring k loses its i-th buffer.
  function Unlink(rings: Rings, k: nat, i: nat): Rings
    requires k < |rings| && i < |rings[k]|
  {
    rings[k := Without(rings[k], i)]
  }

  // Ring k gets b in front.
  function Push(rings: Rings, k: nat, b: nat): Rings
    requires k < |rings|
  {
    rings[k := [b] + rings[k]]
  }

  // b leaves position i of ring k for the front of ring k'.
  function Move(rings: Rings, k: nat, i: nat, k': nat): Rings
    requires k < |rings| && i < |rings[k]| && k' < |rings|
  {
    Push(Unlink(rings, k, i), k', rings[k][i])
  }

  lemma UnlinkPartition(rings: Rings, nbuf: nat, transit: set<nat>, k: nat, i: nat)
    requires Partition(rings, nbuf, transit) && k < |rings| && i < |rings[k]|
    ensures Partition(Unlink(rings, k, i), nbuf, transit + {rings[k][i]})
  {
    var r, b := Unlink(rings, k, i), rings[k][i];
    WithoutMembers(rings[k], i);
    assert b in rings[k];
    forall x | 0 <= x < |rings| && x != k
      ensures b !in rings[x]
    {
      assert if x < k then Disjoint(rings[x], rings[k]) else Disjoint(rings[k], rings[x]);
    }
    forall c: nat | c < nbuf && c !in transit + {b}
      ensures OnSomeRing(r, c)
    {
      var x := RingOf(rings, c);
      assert c in r[x];
    }
  }

  lemma PushPartition(rings: Rings, nbuf: nat, transit: set<nat>, k: nat, b: nat)
    requires Partition(rings, nbuf, transit) && k < |rings| && b in transit && b < nbuf
    ensures Partition(Push(rings, k, b), nbuf, transit - {b})
  {
    var r := Push(rings, k, b);
    assert forall c :: c in r[k] <==> c == b || c in rings[k];
    forall c: nat | c < nbuf && c !in transit - {b}
      ensures OnSomeRing(r, c)
    {
      var x := if c == b then k else RingOf(rings, c);
      assert c in r[x];
    }
  }

  lemma MovePartition(rings: Rings, nbuf: nat, transit: set<nat>, k: nat, i: nat, k': nat)
    requires Partition(rings, nbuf, transit) && k < |rings| && i < |rings[k]| && k' < |rings|
    ensures Partition(Move(rings, k, i, k'), nbuf, transit)
  {
    var b := rings[k][i];
    UnlinkPartition(rings, nbuf, transit, k, i);
    PushPartition(Unlink(rings, k, i), nbuf, transit + {b}, k', b);
    assert b in rings[k];
    assert transit + {b} - {b} == transit;
  }

  lemma MoveMembers(rings: Rings, nbuf: nat, transit: set<nat>, k: nat, i: nat, k': nat)
    requires Partition(rings, nbuf, transit) && k < |rings| && i < |rings[k]| && k' < |rings|
    ensures forall x, c | 0 <= x < |rings| ::
              c in Move(rings, k, i, k')[x] <==> if c == rings[k][i] then x == k' else c in rings[x]
  {
  }

  // Updates at the nodes of ring k, its head and buffers in transit leave the
  // other rings linked.
  lemma OthersFrame(next: seq<nat>, prev: seq<nat>, next': seq<nat>, prev': seq<nat>,
                    nbuf: nat, rings: Rings, transit: set<nat>, k: nat)
    requires Linked(next, prev, nbuf, rings) && Partition(rings, nbuf, transit) && k < |rings|
    requires |next'| == |prev'| == |next|
    requires forall y: nat | y < |next| && y != nbuf + k && y !in rings[k] && y !in transit ::
               next'[y] == next[y] && prev'[y] == prev[y]
    ensures forall x | 0 <= x < |rings| && x != k :: RingLinked(next', prev', nbuf + x, rings[x])
  {
  }

  lemma RingUnlink(next: seq<nat>, prev: seq<nat>, h: nat, ring: seq<nat>, i: nat)
    requires RingLinked(next, prev, h, ring) && Distinct(ring) && h !in ring && i < |ring|
    ensures var b, c := ring[i], Cycle(h, ring);
            && b < |next| && prev[b] == c[i] < |next| && next[b] == c[i + 2] < |next|
            && prev[b] != b && next[b] != b
            && RingLinked(next[prev[b] := next[b]], prev[next[b] := prev[b]], h, Without(ring, i))
  {
    var c, c' := Cycle(h, ring), Cycle(h, Without(ring, i));
    WithoutMembers(ring, i);
    CycleDistinct(h, ring);
    assert forall j | 0 <= j < |c'| :: c'[j] == c[if j <= i then j else j + 1];
    assert c[i + 1] == ring[i];
    assert next[c[i + 1]] == c[i + 2] && prev[c[i + 1]] == c[i];
    var next', prev' := next[c[i] := c[i + 2]], prev[c[i + 2] := c[i]];
    forall j, j' | 0 <= j < j' < |c'| && j' == j + 1
      ensures next'[c'[j]] == c'[j'] && prev'[c'[j']] == c'[j]
    {
      if j < i {
        assert c'[j] == c[j] && c'[j'] == c[j'];
      } else if j == i {
        assert c'[j] == c[i] && c'[j'] == c[i + 2];
      } else {
        assert c'[j] == c[j + 1] && c'[j'] == c[j' + 1];
      }
    }
  }

  // Along a cycle only the two ends coincide.
  lemma CycleDistinct(h: nat, ring: seq<nat>)
    requires Distinct(ring) && h !in ring
    ensures var c := Cycle(h, ring);
            forall i, j | 0 <= i < j < |c| :: c[i] == c[j] ==> i == 0 && j == |c| - 1
  {
  }

  // b's predecessor and successor are made to point to each other.
  lemma LinkedUnlink(next: seq<nat>, prev: seq<nat>, nbuf: nat, rings: Rings, transit: set<nat>, k: nat, i: nat)
    requires Linked(next, prev, nbuf, rings) && Partition(rings, nbuf, transit)
    requires k < |rings| && i < |rings[k]|
    ensures var b := rings[k][i];
            && b < |next| && prev[b] < |next| && next[b] < |next| && prev[b] != b && next[b] != b
            && Linked(next[prev[b] := next[b]], prev[next[b] := prev[b]], nbuf, Unlink(rings, k, i))
  {
    var ring, h := rings[k], nbuf + k;
    var b, c := ring[i], Cycle(h, ring);
    assert OnlyBuffers(ring, nbuf, transit);
    assert RingLinked(next, prev, h, ring);
    RingUnlink(next, prev, h, ring, i);
    OthersFrame(next, prev, next[prev[b] := next[b]], prev[next[b] := prev[b]], nbuf, rings, transit, k);
  }

  lemma RingPush(next: seq<nat>, prev: seq<nat>, h: nat, ring: seq<nat>, b: nat)
    requires RingLinked(next, prev, h, ring) && Distinct(ring) && h !in ring && b !in ring && b < |next| && b != h
    ensures h < |next|
    ensures var first := next[h];
            && first == Cycle(h, ring)[1] < |next| && first != b
            && RingLinked(next[b := first][h := b], prev[b := h][first := b], h, [b] + ring)
  {
    var c := Cycle(h, ring);
    assert next[c[0]] == c[1];
    var c' := Cycle(h, [b] + ring);
    assert forall j | 0 <= j < |c'| :: c'[j] == if j == 0 then h else if j == 1 then b else c[j - 1];
    assert forall j | 0 < j < |c| - 1 :: c[j] == ring[j - 1];
    assert forall j | 1 < j < |c| :: c[j] != c[1];
    assert forall j | 0 < j < |c| - 1 :: c[j] != h;
  }

  // b is pointed at the head and at the first buffer, and then these at b.
  lemma LinkedPush(next: seq<nat>, prev: seq<nat>, nbuf: nat, rings: Rings, transit: set<nat>, k: nat, b: nat)
    requires Linked(next, prev, nbuf, rings) && Partition(rings, nbuf, transit)
    requires k < |rings| && b < nbuf && b in transit
    ensures var h := nbuf + k; var first := next[h];
            && first < |next| && first != b
            && Linked(next[b := first][h := b], prev[b := h][first := b], nbuf, Push(rings, k, b))
  {
    var ring, h := rings[k], nbuf + k;
    assert OnlyBuffers(ring, nbuf, transit);
    assert RingLinked(next, prev, h, ring);
    RingPush(next, prev, h, ring, b);
    var first := next[h];
    OthersFrame(next, prev, next[b := first][h := b], prev[b := h][first := b], nbuf, rings, transit, k);
  }
}
