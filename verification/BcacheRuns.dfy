/** Whole runs of the buffer cache, with bget atomic: who holds references, in
    which order buffers were last put in front, and which data they carry. */
module BcacheRuns {
  import opened Rows
  import opened BufRings
  import opened Bcache
  import opened BcacheProbe

  function At(m: map<Key, int>, k: Key): int { if k in m then m[k] else 0 }

  /** `pend` counts, per buffer, the bgets that have not yet got its sleep lock
      and `pins` its bpins not undone. `touched` are the buffers bget ever
      returned; `stamp` is the time a buffer was last linked in at a front.
      `disk` is what is on disk, `wrote` what was last written by anyone. */
  datatype World = World(
    c: Cache, pend: seq<nat>, pins: seq<nat>, touched: set<nat>,
    clock: nat, stamp: seq<nat>, data: seq<int>, disk: map<Key, int>, wrote: map<Key, int>)

  datatype Event =
    | EGet(dev: U32, blockno: U32)
    | ELock(b: nat, pid: nat)
    | EFill(b: nat)
    | EWrite(b: nat, v: int)
    | EFlush(b: nat)
    | ERelse(b: nat)
    | EPin(b: nat)
    | EUnpin(b: nat)

  function Held(b: Buf): nat { if b.sleeper != 0 then 1 else 0 }

  // The references to b given out and not yet given back.
  function Refs(w: World, b: nat): nat
    requires b < |w.c.bufs| && b < |w.pend| && b < |w.pins|
  {
    w.pend[b] + w.pins[b] + Held(w.c.bufs[b])
  }

  ghost predicate Sized(w: World) {
    && WellFormed(w.c)
    && |w.pend| == |w.pins| == |w.stamp| == |w.data| == |w.c.bufs|
    && (forall b | b in w.touched :: b < |w.c.bufs|)
  }

  function Init(nbuf: nat, n: nat, disk: map<Key, int>): World
    requires 0 < n
  {
    World(Cache(InitRings(nbuf, n), seq(nbuf, _ => ZERO_BUF)), seq(nbuf, _ => 0), seq(nbuf, _ => 0), {},
          nbuf, seq(nbuf, i => i + 1), seq(nbuf, _ => 0), disk, disk)
  }

  // What the callers keep to: only the holder of the sleep lock reads the block
  // in, writes it and releases it; bpin and bunpin are by someone with a reference.
  ghost predicate Allowed(w: World, e: Event)
    requires Sized(w)
  {
    match e
    case EGet(dev, blockno) => !Choose(w.c, dev, blockno).NoBuffers?
    case ELock(b, pid) => b < |w.c.bufs| && pid != 0 && w.pend[b] > 0 && w.c.bufs[b].sleeper == 0
    case EFill(b) => b < |w.c.bufs| && w.c.bufs[b].sleeper != 0 && !w.c.bufs[b].valid
    case EWrite(b, _) => b < |w.c.bufs| && w.c.bufs[b].sleeper != 0 && w.c.bufs[b].valid
    case EFlush(b) => b < |w.c.bufs| && w.c.bufs[b].sleeper != 0 && w.c.bufs[b].valid
    case ERelse(b) => b < |w.c.bufs| && w.c.bufs[b].sleeper != 0
    case EPin(b) => b < |w.c.bufs| && Refs(w, b) > 0
    case EUnpin(b) => b < |w.c.bufs| && w.pins[b] > 0
  }

  ghost function Next(w: World, e: Event): World
    requires Sized(w) && Allowed(w, e)
  {
    match e
    case EGet(dev, blockno) =>
      var ch := Choose(w.c, dev, blockno);
      var b := Chosen(w.c, ch);
      assert OnlyBuffers(w.c.rings[ch.k], |w.c.bufs|, {});
      var w' := w.(c := Get(w.c, dev, blockno), pend := w.pend[b := w.pend[b] + 1], touched := w.touched + {b});
      if ch.Steal? then w'.(clock := w.clock + 1, stamp := w.stamp[b := w.clock + 1]) else w'
    case ELock(b, pid) =>
      w.(c := w.c.(bufs := w.c.bufs[b := w.c.bufs[b].(sleeper := pid)]), pend := w.pend[b := w.pend[b] - 1])
    case EFill(b) =>
      w.(c := w.c.(bufs := w.c.bufs[b := w.c.bufs[b].(valid := true)]),
         data := w.data[b := At(w.disk, KeyOf(w.c.bufs[b]))])
    case EWrite(b, v) =>
      w.(data := w.data[b := v], wrote := w.wrote[KeyOf(w.c.bufs[b]) := v])
    case EFlush(b) =>
      w.(disk := w.disk[KeyOf(w.c.bufs[b]) := w.data[b]])
    case ERelse(b) =>
      var w' := w.(c := Release(w.c, b));
      if Dec(w.c.bufs[b].refcnt) == 0 then w'.(clock := w.clock + 1, stamp := w.stamp[b := w.clock + 1]) else w'
    case EPin(b) => w.(c := Pin(w.c, b), pins := w.pins[b := w.pins[b] + 1])
    case EUnpin(b) => w.(c := Unpin(w.c, b), pins := w.pins[b := w.pins[b] - 1])
  }

  ghost predicate IsRun(ws: seq<World>, es: seq<Event>, nbuf: nat, n: nat, disk: map<Key, int>) {
    && 0 < n < 0x8000_0000
    && |ws| == |es| + 1
    && ws[0] == Init(nbuf, n, disk)
    && forall i | 0 <= i < |es| :: Sized(ws[i]) && Allowed(ws[i], es[i]) && ws[i + 1] == Next(ws[i], es[i])
  }

  /* The invariants. */

  // Every buffer bget ever returned is on the ring its block number hashes to.
  ghost predicate Placed(w: World)
    requires Sized(w)
  {
    forall b | b in w.touched :: b in w.c.rings[w.c.bufs[b].blockno % |w.c.rings|]
  }

  ghost predicate Untouched(w: World)
    requires Sized(w)
  {
    forall b: nat | b < |w.c.bufs| && b !in w.touched ::
      w.c.bufs[b] == ZERO_BUF && Refs(w, b) == 0
  }

  ghost predicate Accounted(w: World)
    requires Sized(w)
  {
    forall b | 0 <= b < |w.c.bufs| :: w.c.bufs[b].refcnt == Refs(w, b) % TWO32
  }

  ghost predicate Newer(ring: seq<nat>, stamp: seq<nat>, clock: nat) {
    && (forall i | 0 <= i < |ring| :: ring[i] < |stamp| && stamp[ring[i]] <= clock)
    && (forall i, j | 0 <= i < j < |ring| :: stamp[ring[i]] > stamp[ring[j]])
  }

  // Every ring is in strictly decreasing order of the time its buffers were
  // last linked in at its front.
  ghost predicate LruOrder(w: World)
    requires Sized(w)
  {
    forall k | 0 <= k < |w.c.rings| :: Newer(w.c.rings[k], w.stamp, w.clock)
  }

  ghost predicate Inv(w: World) {
    Sized(w) && Placed(w) && Untouched(w) && UniqueKeys(w.c.bufs) && Accounted(w) && LruOrder(w)
  }

  /* Initially. */

  lemma {:induction false} InitRingsOk(i: nat, nbuf: nat, n: nat)
    requires i <= nbuf && 0 < n
    ensures Partition(InitRings(i, n), nbuf, From(i, nbuf))
    ensures forall k | 0 <= k < n :: Newer(InitRings(i, n)[k], seq(nbuf, j => j + 1), i)
  {
    if i > 0 {
      InitRingsOk(i - 1, nbuf, n);
      var k := (i - 1) % n;
      PushPartition(InitRings(i - 1, n), nbuf, From(i - 1, nbuf), k, i - 1);
      assert From(i - 1, nbuf) - {i - 1} == From(i, nbuf);
      NewerPush(InitRings(i - 1, n)[k], seq(nbuf, j => j + 1), i - 1, i - 1);
    }
  }

  lemma NewerPush(ring: seq<nat>, stamp: seq<nat>, clock: nat, b: nat)
    requires Newer(ring, stamp, clock) && b < |stamp| && stamp[b] == clock + 1
    ensures Newer([b] + ring, stamp, clock + 1)
  {
  }

  lemma InitInv(nbuf: nat, n: nat, disk: map<Key, int>)
    requires 0 < n < 0x8000_0000
    ensures Inv(Init(nbuf, n, disk))
  {
    InitRingsOk(nbuf, nbuf, n);
    assert From(nbuf, nbuf) == {};
  }

  /* Steps. */

  // A re-keying or release that puts b in front of ring k' keeps the LRU order.
  lemma MoveOrder(rings: Rings, nbuf: nat, transit: set<nat>, stamp: seq<nat>, clock: nat, k: nat, i: nat, k': nat)
    requires Partition(rings, nbuf, transit) && |stamp| == nbuf
    requires k < |rings| && i < |rings[k]| && k' < |rings|
    requires forall x | 0 <= x < |rings| :: Newer(rings[x], stamp, clock)
    ensures rings[k][i] < nbuf
    ensures forall x | 0 <= x < |rings| ::
              Newer(Move(rings, k, i, k')[x], stamp[rings[k][i] := clock + 1], clock + 1)
  {
    var b := rings[k][i];
    assert OnlyBuffers(rings[k], nbuf, transit) && b in rings[k];
    var stamp' := stamp[b := clock + 1];
    var mid := Unlink(rings, k, i);
    UnlinkPartition(rings, nbuf, transit, k, i);
    forall x | 0 <= x < |rings|
      ensures Newer(mid[x], stamp', clock)
    {
      assert OnlyBuffers(mid[x], nbuf, transit + {b});
      NewerWithout(rings[k], stamp, clock, i);
      assert Newer(mid[x], stamp, clock);
      assert forall j | 0 <= j < |mid[x]| :: mid[x][j] in mid[x];
    }
    NewerPush(mid[k'], stamp', clock, b);
  }

  lemma NewerWithout(ring: seq<nat>, stamp: seq<nat>, clock: nat, i: nat)
    requires Newer(ring, stamp, clock) && i < |ring|
    ensures Newer(Without(ring, i), stamp, clock)
  {
  }

  // From w to w' only the record, the counts and the data of b change; b is
  // touched from now on, and its references are accounted for.
  ghost predicate OnlyAt(w: World, w': World, b: nat, x: Buf)
    requires Sized(w)
  {
    && b < |w.c.bufs|
    && w'.c.bufs == w.c.bufs[b := x]
    && |w'.pend| == |w'.pins| == |w'.data| == |w.c.bufs|
    && (forall b' | 0 <= b' < |w.c.bufs| && b' != b :: w'.pend[b'] == w.pend[b'] && w'.pins[b'] == w.pins[b'])
    && w'.touched == w.touched + {b}
    && x.refcnt == (w'.pend[b] + w'.pins[b] + Held(x)) % TWO32
  }

  lemma StayInv(w: World, w': World, b: nat, x: Buf)
    requires Inv(w) && OnlyAt(w, w', b, x) && UniqueKeys(w'.c.bufs)
    requires w'.c.rings == w.c.rings && w'.stamp == w.stamp && w'.clock == w.clock
    requires b in w.c.rings[x.blockno % |w.c.rings|]
    ensures Inv(w')
  {
    hide Untouched, Accounted, UniqueKeys, Partition, Newer;
    CountsKept(w, w', b, x);
  }

  // b leaves position i of ring k for the front of the ring of its block.
  ghost predicate Moved(w: World, w': World, b: nat, x: Buf, k: nat, i: nat)
    requires Sized(w)
  {
    && OnlyAt(w, w', b, x)
    && k < |w.c.rings| && i < |w.c.rings[k]| && w.c.rings[k][i] == b
    && w'.c.rings == Move(w.c.rings, k, i, x.blockno % |w.c.rings|)
    && w'.stamp == w.stamp[b := w.clock + 1] && w'.clock == w.clock + 1
  }

  lemma MoveSized(w: World, w': World, b: nat, x: Buf, k: nat, i: nat)
    requires Sized(w) && Moved(w, w', b, x, k, i)
    ensures Sized(w')
  {
    MovePartition(w.c.rings, |w.c.bufs|, {}, k, i, x.blockno % |w.c.rings|);
    hide Partition, Move;
  }

  lemma MovePlaced(w: World, w': World, b: nat, x: Buf, k: nat, i: nat)
    requires Sized(w) && Placed(w) && Moved(w, w', b, x, k, i) && Sized(w')
    ensures Placed(w')
  {
  }

  lemma MoveLru(w: World, w': World, b: nat, x: Buf, k: nat, i: nat)
    requires Sized(w) && LruOrder(w) && Moved(w, w', b, x, k, i) && Sized(w')
    ensures LruOrder(w')
  {
    MoveOrder(w.c.rings, |w.c.bufs|, {}, w.stamp, w.clock, k, i, x.blockno % |w.c.rings|);
    hide Partition, Move, Newer;
  }

  lemma CountsKept(w: World, w': World, b: nat, x: Buf)
    requires Sized(w) && Untouched(w) && Accounted(w) && OnlyAt(w, w', b, x) && Sized(w')
    ensures Untouched(w') && Accounted(w')
  {
  }

  lemma MoveInv(w: World, w': World, b: nat, x: Buf, k: nat, i: nat)
    requires Inv(w) && Moved(w, w', b, x, k, i) && UniqueKeys(w'.c.bufs)
    ensures Inv(w')
  {
    hide Sized, Placed, LruOrder, Untouched, Accounted, UniqueKeys;
    MoveSized(w, w', b, x, k, i);
    MovePlaced(w, w', b, x, k, i);
    MoveLru(w, w', b, x, k, i);
    CountsKept(w, w', b, x);
  }

  // 32-bit counting of references loses nothing but multiples of 2^32.
  lemma IncMod(x: nat)
    ensures Inc(x % TWO32) == (x + 1) % TWO32
    ensures x > 0 ==> Dec(x % TWO32) == (x - 1) % TWO32
  {
  }

  // What Choose returns is on the ring it names, free if it is to be re-keyed,
  // and on the block's own ring unless it is stolen.
  lemma ChosenIs(c: Cache, dev: U32, blockno: U32)
    requires WellFormed(c)
    ensures var ch := Choose(c, dev, blockno);
            !ch.NoBuffers? ==>
            var b := Chosen(c, ch);
            && b < |c.bufs| && b in c.rings[ch.k]
            && (!ch.Steal? ==> ch.k == blockno % |c.rings|)
            && (ch.Hit? ==> HasKey(c.bufs[b], dev, blockno))
            && (!ch.Hit? ==> c.bufs[b].refcnt == 0)
  {
  }

  lemma GetInv(w: World, dev: U32, blockno: U32)
    requires Inv(w) && Allowed(w, EGet(dev, blockno))
    ensures Inv(Next(w, EGet(dev, blockno)))
  {
    var ch, w' := Choose(w.c, dev, blockno), Next(w, EGet(dev, blockno));
    var b := Chosen(w.c, ch);
    ChosenIs(w.c, dev, blockno);
    var x := w'.c.bufs[b];
    GetUnique(w, dev, blockno);
    GetShape(w, dev, blockno);
    hide Choose, Chosen, Inv, OnlyAt, Moved, Next;
    if ch.Steal? {
      MoveInv(w, w', b, x, ch.k, ch.i);
    } else {
      StayInv(w, w', b, x);
    }
  }

  lemma GetShape(w: World, dev: U32, blockno: U32)
    requires Sized(w) && Accounted(w) && Allowed(w, EGet(dev, blockno))
    ensures var ch, w' := Choose(w.c, dev, blockno), Next(w, EGet(dev, blockno));
            var b := Chosen(w.c, ch);
            && b < |w.c.bufs| && b < |w'.c.bufs|
            && OnlyAt(w, w', b, w'.c.bufs[b])
            && w'.c.bufs[b] == (if ch.Hit? then w.c.bufs[b].(refcnt := Inc(w.c.bufs[b].refcnt))
                                else Buf(dev, blockno, 1, false, w.c.bufs[b].sleeper))
            && (!ch.Hit? ==> w.c.bufs[b].refcnt == 0)
            && w'.pend == w.pend[b := w.pend[b] + 1] && w'.pins == w.pins
            && w'.data == w.data && w'.disk == w.disk && w'.wrote == w.wrote
            && (ch.Steal? ==> Moved(w, w', b, w'.c.bufs[b], ch.k, ch.i))
            && (!ch.Steal? ==> w'.c.rings == w.c.rings && w'.stamp == w.stamp && w'.clock == w.clock)
            && (!ch.Steal? ==> b in w.c.rings[w'.c.bufs[b].blockno % |w.c.rings|])
  {
    var ch, w' := Choose(w.c, dev, blockno), Next(w, EGet(dev, blockno));
    var b := Chosen(w.c, ch);
    ChosenIs(w.c, dev, blockno);
    hide Choose, WellFormed, Move;
    var x := w'.c.bufs[b];
    assert x.refcnt == Inc(w.c.bufs[b].refcnt);
    IncMod(Refs(w, b));
  }

  lemma ReleaseInv(w: World, b: nat)
    requires Inv(w) && Allowed(w, ERelse(b))
    ensures Inv(Next(w, ERelse(b)))
  {
    var w' := Next(w, ERelse(b));
    ReleaseShape(w, b);
    var k := RingOf(w.c.rings, b);
    var i := PosOf(w.c.rings[k], b);
    var x := w'.c.bufs[b];
    assert b in w.touched;
    hide Inv, OnlyAt, Moved, Next;
    if Dec(w.c.bufs[b].refcnt) == 0 {
      MoveInv(w, w', b, x, k, i);
    } else {
      StayInv(w, w', b, x);
    }
  }

  lemma ReleaseShape(w: World, b: nat)
    requires Sized(w) && Placed(w) && Untouched(w) && UniqueKeys(w.c.bufs) && Accounted(w) && Allowed(w, ERelse(b))
    ensures var w' := Next(w, ERelse(b)); var x := w'.c.bufs[b]; var k := RingOf(w.c.rings, b);
            && OnlyAt(w, w', b, x) && UniqueKeys(w'.c.bufs)
            && x.blockno == w.c.bufs[b].blockno
            && b in w.touched && b in w.c.rings[x.blockno % |w.c.rings|]
            && if Dec(w.c.bufs[b].refcnt) == 0 then Moved(w, w', b, x, k, PosOf(w.c.rings[k], b))
               else w'.c.rings == w.c.rings && w'.stamp == w.stamp && w'.clock == w.clock
  {
    assert b in w.touched;
    hide Placed, Untouched, WellFormed, Move;
    IncMod(Refs(w, b));
  }

  lemma NextInv(w: World, e: Event)
    requires Inv(w) && Allowed(w, e)
    ensures Inv(Next(w, e))
  {
    match e
    case EGet(dev, blockno) => GetInv(w, dev, blockno);
    case ERelse(b) => ReleaseInv(w, b);
    case _ => InPlaceInv(w, e);
  }

  lemma InPlaceInv(w: World, e: Event)
    requires Inv(w) && Allowed(w, e) && !e.EGet? && !e.ERelse?
    ensures Inv(Next(w, e))
  {
    var w' := Next(w, e);
    assert e.b in w.touched;
    InPlaceShape(w, e);
    hide Inv, OnlyAt, Next;
    StayInv(w, w', e.b, w'.c.bufs[e.b]);
  }

  lemma InPlaceShape(w: World, e: Event)
    requires Sized(w) && UniqueKeys(w.c.bufs) && Accounted(w) && Allowed(w, e) && !e.EGet? && !e.ERelse?
    requires e.b in w.touched
    ensures var w' := Next(w, e);
            && w'.c.rings == w.c.rings && w'.stamp == w.stamp && w'.clock == w.clock
            && OnlyAt(w, w', e.b, w'.c.bufs[e.b]) && UniqueKeys(w'.c.bufs)
            && w'.c.bufs[e.b].blockno == w.c.bufs[e.b].blockno
  {
    hide WellFormed;
    IncMod(Refs(w, e.b));
  }

  lemma {:induction false} RunInv(ws: seq<World>, es: seq<Event>, nbuf: nat, n: nat, disk: map<Key, int>, i: nat)
    requires IsRun(ws, es, nbuf, n, disk) && i < |ws|
    ensures Inv(ws[i])
  {
    if i == 0 {
      InitInv(nbuf, n, disk);
    } else {
      RunInv(ws, es, nbuf, n, disk, i - 1);
      assert ws[i] == Next(ws[i - 1], es[i - 1]);
      NextInv(ws[i - 1], es[i - 1]);
    }
  }

  // bget re-keys a buffer only when no buffer has the key.
  lemma AbsentIfMissed(w: World, dev: U32, blockno: U32, b: nat)
    requires Inv(w) && dev != 0 && b < |w.c.bufs| && HasKey(w.c.bufs[b], dev, blockno)
    ensures Choose(w.c, dev, blockno).Hit? && Chosen(w.c, Choose(w.c, dev, blockno)) == b
  {
  }

  lemma GetUnique(w: World, dev: U32, blockno: U32)
    requires Inv(w)
    ensures UniqueKeys(Get(w.c, dev, blockno).bufs)
  {
    var c, ch := w.c, Choose(w.c, dev, blockno);
    ChosenIs(c, dev, blockno);
    if dev != 0 && !ch.Hit? {
      forall b' | 0 <= b' < |c.bufs|
        ensures !HasKey(c.bufs[b'], dev, blockno)
      {
        if HasKey(c.bufs[b'], dev, blockno) {
          AbsentIfMissed(w, dev, blockno, b');
        }
      }
    }
  }

  /* bget against the cache without rings: a table of buffers. */

  // The table after a block is requested: the buffer that has it gains a
  // reference, or else an unreferenced one is given its key.
  ghost predicate TableGet(bufs: seq<Buf>, dev: U32, blockno: U32, b: nat, bufs': seq<Buf>) {
    && b < |bufs|
    && if exists b' :: 0 <= b' < |bufs| && HasKey(bufs[b'], dev, blockno) then
         && HasKey(bufs[b], dev, blockno)
         && bufs' == bufs[b := bufs[b].(refcnt := Inc(bufs[b].refcnt))]
       else
         && bufs[b].refcnt == 0
         && bufs' == bufs[b := Buf(dev, blockno, 1, false, bufs[b].sleeper)]
  }

  ghost predicate TableFull(bufs: seq<Buf>, dev: U32, blockno: U32) {
    forall b | 0 <= b < |bufs| :: !HasKey(bufs[b], dev, blockno) && bufs[b].refcnt != 0
  }

  lemma GetRefinesTable(w: World, dev: U32, blockno: U32)
    requires Inv(w) && dev != 0
    ensures var ch := Choose(w.c, dev, blockno);
            !ch.NoBuffers? ==> TableGet(w.c.bufs, dev, blockno, Chosen(w.c, ch), Get(w.c, dev, blockno).bufs)
  {
  }

  // No probed ring has a free buffer when bget gives up.
  lemma NoBuffersProbed(c: Cache, dev: U32, blockno: U32, i: nat)
    requires WellFormed(c) && Choose(c, dev, blockno).NoBuffers? && i < |c.rings|
    ensures forall b | b in c.rings[Probe(blockno, i, |c.rings|)] :: b !in Free(c.bufs)
  {
    ProbeHome(blockno, |c.rings|);
    hide WellFormed, Probe;
    if i == 0 {
      var ring := c.rings[blockno % |c.rings|];
      assert forall j | 0 <= j < |ring| :: ring[j] !in Free(c.bufs);
    } else {
      FirstProbeSkips(c, blockno, 1, i);
    }
  }

  // No buffer has the key, and none on a ring that bget looks at is free.
  ghost predicate NoneInReach(c: Cache, dev: U32, blockno: U32)
    requires 0 < |c.rings|
  {
    && (forall b | 0 <= b < |c.bufs| :: !HasKey(c.bufs[b], dev, blockno))
    && (forall b: nat | b < |c.bufs| && OnSomeRing(c.rings, b) ::
          Reaches(blockno, |c.rings|, RingOf(c.rings, b)) ==> c.bufs[b].refcnt != 0)
  }

  // bget panics exactly when the block is absent and every buffer on a ring its
  // probes reach is referenced.
  lemma GetPanicsIff(w: World, dev: U32, blockno: U32)
    requires Inv(w) && dev != 0
    ensures Choose(w.c, dev, blockno).NoBuffers? <==> NoneInReach(w.c, dev, blockno)
  {
    var c, n := w.c, |w.c.rings|;
    if Choose(c, dev, blockno).NoBuffers? {
      forall b: nat | b < |c.bufs|
        ensures !HasKey(c.bufs[b], dev, blockno)
        ensures OnSomeRing(c.rings, b) && Reaches(blockno, n, RingOf(c.rings, b)) ==> c.bufs[b].refcnt != 0
      {
        if HasKey(c.bufs[b], dev, blockno) {
          AbsentIfMissed(w, dev, blockno, b);
        }
        if OnSomeRing(c.rings, b) && Reaches(blockno, n, RingOf(c.rings, b)) {
          var i: nat :| i < n && Probe(blockno, i, n) == RingOf(c.rings, b);
          NoBuffersProbed(c, dev, blockno, i);
          assert b !in Free(c.bufs);
        }
      }
    } else {
      ChoiceInReach(c, dev, blockno);
    }
  }

  lemma ChoiceInReach(c: Cache, dev: U32, blockno: U32)
    requires WellFormed(c) && !Choose(c, dev, blockno).NoBuffers?
    ensures !NoneInReach(c, dev, blockno)
  {
    var ch := Choose(c, dev, blockno);
    var b := Chosen(c, ch);
    ChosenIs(c, dev, blockno);
    ProbeHome(blockno, |c.rings|);
    assert Reaches(blockno, |c.rings|, ch.k);
    RingOfUnique(c.rings, b, ch.k);
    hide WellFormed;
  }

  // For block numbers whose probes reach every bucket: exactly when the block is
  // absent and every buffer referenced.
  lemma GetPanicsIffFull(w: World, dev: U32, blockno: U32)
    requires Inv(w) && dev != 0 && ProbesAligned(blockno, |w.c.rings|)
    ensures Choose(w.c, dev, blockno).NoBuffers? <==> TableFull(w.c.bufs, dev, blockno)
  {
    GetPanicsIff(w, dev, blockno);
    AlignedReachesAll(blockno, |w.c.rings|);
    assert forall b: nat | b < |w.c.bufs| :: OnSomeRing(w.c.rings, b);
    hide Choose;
  }

  // A cache of one buffer, on ring k.
  function OneBuffer(n: nat, k: nat): Rings {
    seq(n, j => if j == k then [0] else [])
  }

  // For every other block number a run ends with a free buffer that bget does
  // not find, whatever the device: a bget for block k of device 1 steals the one
  // buffer there is to ring k, which no probe reaches, and gives it back.
  lemma MisalignedPanics(dev: U32, blockno: U32, n: nat, disk: map<Key, int>)
      returns (ws: seq<World>, es: seq<Event>)
    requires dev != 0 && 0 < n < 0x8000_0000 && !ProbesAligned(blockno, n)
    ensures IsRun(ws, es, 1, n, disk)
    ensures var c := ws[|es|].c; |c.rings| == n && Choose(c, dev, blockno).NoBuffers?
    ensures !TableFull(ws[|es|].c.bufs, dev, blockno)
  {
    hide Init, Next, Allowed, Sized, Inv, Choose, NoneInReach, Reaches, OneBuffer;
    var k := MisalignedMisses(blockno, n);
    var w1 := StealToRing(n, k, disk);
    var w2, w3 := GiveBack(w1, n, k);
    ws, es := [Init(1, n, disk), w1, w2, w3], [EGet(1, k), ELock(0, 1), ERelse(0)];
    NotFound(w3, n, k, dev, blockno);
  }

  lemma NotFound(w: World, n: nat, k: nat, dev: U32, blockno: U32)
    requires Inv(w) && dev != 0 && k < n < 0x8000_0000 && !Reaches(blockno, n, k) && k < TWO32 - n < blockno
    requires w.c == Cache(OneBuffer(n, k), [Buf(1, k, 0, false, 0)])
    ensures |w.c.rings| == n && Choose(w.c, dev, blockno).NoBuffers? && !TableFull(w.c.bufs, dev, blockno)
  {
    GetPanicsIff(w, dev, blockno);
    RingOfUnique(w.c.rings, 0, k);
    hide Inv, Choose, Reaches;
    assert w.c.bufs[0].refcnt == 0;
  }

  lemma StealToRing(n: nat, k: nat, disk: map<Key, int>) returns (w: World)
    requires 0 < k < n < 0x8000_0000
    ensures var w0 := Init(1, n, disk); Sized(w0) && Allowed(w0, EGet(1, k)) && w == Next(w0, EGet(1, k))
    ensures Inv(w) && w.c == Cache(OneBuffer(n, k), [Buf(1, k, 1, false, 0)]) && w.pend == [1]
  {
    hide Inv, Sized, Choose, Get, InitRings, OneBuffer, WellFormed;
    var w0 := Init(1, n, disk);
    InitInv(1, n, disk);
    InvSized(w0);
    FirstRings(n);
    assert w0.c == Cache(OneBuffer(n, 0), [ZERO_BUF]) && w0.pend == [0];
    OneIsStolen(n, k);
    GetsOne(w0.c, n, k);
    w := Next(w0, EGet(1, k));
    NextInv(w0, EGet(1, k));
  }

  lemma GetsOne(c: Cache, n: nat, k: nat)
    requires WellFormed(c) && 0 < k < n < 0x8000_0000 && c == Cache(OneBuffer(n, 0), [ZERO_BUF])
    ensures |c.rings| == n && Chosen(c, Steal(0, 0)) == 0
    ensures Get(c, 1, k) == Cache(OneBuffer(n, k), [Buf(1, k, 1, false, 0)])
  {
    hide WellFormed, Choose, Move, InitRings;
    OneIsStolen(n, k);
    Modulo(k, n);
    MoveOne(n, 0, k);
  }

  lemma InvSized(w: World)
    requires Inv(w)
    ensures Sized(w) && WellFormed(w.c)
  {
  }

  lemma GiveBack(w1: World, n: nat, k: nat) returns (w2: World, w3: World)
    requires Inv(w1) && 0 < k < n < 0x8000_0000
    requires w1.c == Cache(OneBuffer(n, k), [Buf(1, k, 1, false, 0)]) && w1.pend == [1]
    ensures Sized(w1) && Allowed(w1, ELock(0, 1)) && w2 == Next(w1, ELock(0, 1))
    ensures Sized(w2) && Allowed(w2, ERelse(0)) && w3 == Next(w2, ERelse(0)) && Inv(w3)
    ensures w3.c == Cache(OneBuffer(n, k), [Buf(1, k, 0, false, 0)])
  {
    hide Inv, Sized, Move, WellFormed, OneBuffer, Release;
    InvSized(w1);
    w2 := Next(w1, ELock(0, 1));
    NextInv(w1, ELock(0, 1));
    InvSized(w2);
    w3 := Next(w2, ERelse(0));
    ReleasesOne(w2.c, n, k);
    NextInv(w2, ERelse(0));
  }

  lemma ReleasesOne(c: Cache, n: nat, k: nat)
    requires WellFormed(c) && k < n < 0x8000_0000 && c == Cache(OneBuffer(n, k), [Buf(1, k, 1, false, 1)])
    ensures Release(c, 0) == Cache(OneBuffer(n, k), [Buf(1, k, 0, false, 0)])
  {
    hide WellFormed, Move, OneBuffer, OnSomeRing, RingOf, PosOf, Dec;
    Modulo(k, n);
    assert |c.rings| == n by { OneLength(n, k); }
    OneRing(c.rings, n, k);
    DecOne();
    MoveOne(n, k, k);
  }

  lemma OneLength(n: nat, k: nat)
    ensures |OneBuffer(n, k)| == n
  {
  }

  lemma DecOne()
    ensures Dec(1) == 0
  {
  }

  lemma Modulo(k: nat, n: nat)
    requires k < n
    ensures k % n == k
  {
  }

  lemma OneRing(rings: Rings, n: nat, k: nat)
    requires k < n && rings == OneBuffer(n, k)
    ensures OnSomeRing(rings, 0) && RingOf(rings, 0) == k && PosOf(rings[k], 0) == 0
  {
    assert 0 in rings[k];
  }

  lemma FirstRings(n: nat)
    requires 0 < n
    ensures InitRings(1, n) == OneBuffer(n, 0)
  {
    var none: seq<nat> := [];
    assert [0] + none == [0];
    assert InitRings(1, n) == Push(InitRings(0, n), 0, 0);
  }

  // The one buffer leaves ring j for ring k.
  lemma MoveOne(n: nat, j: nat, k: nat)
    requires j < n && k < n
    ensures Move(OneBuffer(n, j), j, 0, k) == OneBuffer(n, k)
  {
    var none: seq<nat> := [];
    assert [0] + none == [0] && Without([0], 0) == none;
  }

  // A bget for block k looks at ring k, which is empty, and finds the buffer on
  // ring 0 at its probe n - k.
  lemma OneIsStolen(n: nat, k: nat)
    requires 0 < k < n < 0x8000_0000
    ensures Choose(Cache(OneBuffer(n, 0), [ZERO_BUF]), 1, k) == Steal(0, 0)
  {
    hide Probe, FirstProbe;
    var c := Cache(OneBuffer(n, 0), [ZERO_BUF]);
    Modulo(k, n);
    assert c.bufs[0].refcnt == 0;
    assert 0 in Free(c.bufs) && c.rings[0] == [0] && c.rings[k] == [];
    ProbesZero(k, n);
    if FirstProbe(c, k, 1) == n {
      FirstProbeSkips(c, k, 1, n - k);
    }
  }

  lemma ProbesZero(k: nat, n: nat)
    requires 0 < k < n < 0x8000_0000
    ensures Probe(k, n - k, n) == 0
  {
    assert (k + (n - k)) % TWO32 == n;
  }

  // The blocks of real devices that are cached, and where.
  ghost function Index(bufs: seq<Buf>): (m: map<Key, nat>)
    requires UniqueKeys(bufs)
  {
    map b: nat | b < |bufs| && bufs[b].dev != 0 :: KeyOf(bufs[b]) := b
  }

  // The index changes by one binding, and loses only what its buffer held before.
  lemma GetIndex(w: World, dev: U32, blockno: U32)
    requires Inv(w) && dev != 0 && !Choose(w.c, dev, blockno).NoBuffers?
    ensures UniqueKeys(Get(w.c, dev, blockno).bufs)
    ensures var b, m := Chosen(w.c, Choose(w.c, dev, blockno)), Index(w.c.bufs);
            b < |w.c.bufs|
            && Index(Get(w.c, dev, blockno).bufs) == (m - {KeyOf(w.c.bufs[b])})[Key(dev, blockno) := b]
            && (Key(dev, blockno) in m ==> m[Key(dev, blockno)] == b)
  {
    var b, bufs' := Chosen(w.c, Choose(w.c, dev, blockno)), Get(w.c, dev, blockno).bufs;
    GetUnique(w, dev, blockno);
    GetRefinesTable(w, dev, blockno);
    hide Choose, Chosen, Get, Index, Inv;
    IndexUpdate(w.c.bufs, b, bufs'[b]);
    var m := Index(w.c.bufs);
    IndexAt(w.c.bufs, Key(dev, blockno));
    if Key(dev, blockno) in m {
      assert HasKey(w.c.bufs[m[Key(dev, blockno)]], dev, blockno);
      AbsentIfMissed(w, dev, blockno, m[Key(dev, blockno)]);
    }
  }

  lemma IndexAt(bufs: seq<Buf>, k: Key)
    requires UniqueKeys(bufs)
    ensures k in Index(bufs) ==> Index(bufs)[k] < |bufs| && KeyOf(bufs[Index(bufs)[k]]) == k && k.dev != 0
    ensures forall b | 0 <= b < |bufs| && KeyOf(bufs[b]) == k && k.dev != 0 :: k in Index(bufs) && Index(bufs)[k] == b
  {
  }

  lemma IndexUpdate(bufs: seq<Buf>, b: nat, x: Buf)
    requires b < |bufs| && x.dev != 0 && UniqueKeys(bufs) && UniqueKeys(bufs[b := x])
    ensures Index(bufs[b := x]) == (Index(bufs) - {KeyOf(bufs[b])})[KeyOf(x) := b]
  {
    var m, m' := Index(bufs), Index(bufs[b := x]);
    var r := (m - {KeyOf(bufs[b])})[KeyOf(x) := b];
    forall k
      ensures k in m' <==> k in r
      ensures k in m' ==> m'[k] == r[k]
    {
      IndexEntry(bufs, b, x, k);
    }
    hide Index;
    assert m'.Keys == r.Keys;
  }

  lemma IndexEntry(bufs: seq<Buf>, b: nat, x: Buf, k: Key)
    requires b < |bufs| && x.dev != 0 && UniqueKeys(bufs) && UniqueKeys(bufs[b := x])
    ensures var m' := Index(bufs[b := x]); var r := (Index(bufs) - {KeyOf(bufs[b])})[KeyOf(x) := b];
            (k in m' <==> k in r) && (k in m' ==> m'[k] == r[k])
  {
    var bufs' := bufs[b := x];
    IndexAt(bufs, k);
    assert k in Index(bufs) && Index(bufs)[k] != b ==> bufs'[Index(bufs)[k]] == bufs[Index(bufs)[k]];
    IndexAt(bufs', k);
    hide Index;
    if k == KeyOf(x) {
      assert bufs'[b] == x;
    } else if k in Index(bufs') {
      assert bufs'[Index(bufs')[k]] == bufs[Index(bufs')[k]];
    }
  }

  /* What else a run guarantees. */

  // The buffer recycled from the block's own ring is the unreferenced one whose
  // last time at the front is longest ago.
  lemma RecyclesOldest(w: World, dev: U32, blockno: U32, b: nat)
    requires Inv(w) && Choose(w.c, dev, blockno).Recycle?
    requires b in w.c.rings[blockno % |w.c.rings|] && w.c.bufs[b].refcnt == 0
    ensures w.stamp[Chosen(w.c, Choose(w.c, dev, blockno))] <= w.stamp[b]
  {
  }

  // brelse relinks a buffer within the ring it is on, whose lock it holds, and
  // leaves the other rings alone.
  lemma ReleaseStaysInRing(w: World, b: nat)
    requires Inv(w) && Allowed(w, ERelse(b))
    ensures var k := w.c.bufs[b].blockno % |w.c.rings|;
            && b in w.c.rings[k] && b in Release(w.c, b).rings[k]
            && multiset(Release(w.c, b).rings[k]) == multiset(w.c.rings[k])
            && forall j | 0 <= j < |w.c.rings| && j != k :: Release(w.c, b).rings[j] == w.c.rings[j]
  {
    var k := w.c.bufs[b].blockno % |w.c.rings|;
    assert b in w.touched;
    RingOfUnique(w.c.rings, b, k);
    hide Inv, WellFormed, Move;
    MoveWithin(w.c.rings, k, PosOf(w.c.rings[k], b));
  }

  lemma MoveWithin(rings: Rings, k: nat, i: nat)
    requires k < |rings| && i < |rings[k]|
    ensures var r := Move(rings, k, i, k);
            && |r| == |rings|
            && rings[k][i] in r[k] && multiset(r[k]) == multiset(rings[k])
            && forall j | 0 <= j < |rings| && j != k :: r[j] == rings[j]
  {
    var ring := rings[k];
    assert ring == ring[..i] + [ring[i]] + ring[i + 1..];
    assert Move(rings, k, i, k)[k] == [ring[i]] + (ring[..i] + ring[i + 1..]);
  }

  // A referenced buffer keeps its key, whoever does what.
  lemma KeyStable(w: World, e: Event, b: nat)
    requires Inv(w) && Allowed(w, e) && b < |w.c.bufs| && w.c.bufs[b].refcnt != 0
    ensures b < |Next(w, e).c.bufs| && KeyOf(Next(w, e).c.bufs[b]) == KeyOf(w.c.bufs[b])
  {
    if e.EGet? {
      GetShape(w, e.dev, e.blockno);
      hide Choose, Next, Get, Moved, WellFormed, LruOrder, Placed, Untouched, Accounted, UniqueKeys;
    }
  }

  /* The cache is transparent: readers see the last write. */

  // Reference counts stay below 2^32, and whoever gives back the last reference
  // to a buffer leaves on disk what the buffer holds.
  ghost predicate Disciplined(w: World, e: Event)
    requires Sized(w) && Allowed(w, e)
  {
    && (e.EGet? ==> Refs(w, Chosen(w.c, Choose(w.c, e.dev, e.blockno))) < TWO32 - 1)
    && (e.EPin? ==> Refs(w, e.b) < TWO32 - 1)
    && ((e.ERelse? || e.EUnpin?) && Refs(w, e.b) == 1 && w.c.bufs[e.b].valid ==>
          At(w.disk, KeyOf(w.c.bufs[e.b])) == w.data[e.b])
  }

  ghost predicate Fits(w: World)
    requires Sized(w)
  {
    forall b | 0 <= b < |w.c.bufs| :: Refs(w, b) < TWO32
  }

  // The disk is behind for key k only while a referenced buffer is ahead of it.
  ghost predicate DiskOk(w: World, k: Key)
    requires Sized(w)
  {
    At(w.disk, k) == At(w.wrote, k)
    || exists b :: 0 <= b < |w.c.bufs| && KeyOf(w.c.bufs[b]) == k && w.c.bufs[b].valid && Refs(w, b) > 0
  }

  ghost predicate DataOk(w: World, b: nat)
    requires Sized(w) && b < |w.c.bufs|
  {
    w.c.bufs[b].valid && w.c.bufs[b].dev != 0 ==> w.data[b] == At(w.wrote, KeyOf(w.c.bufs[b]))
  }

  ghost predicate Coherent(w: World)
    requires Sized(w)
  {
    && Fits(w)
    && (forall b: nat | b < |w.c.bufs| :: DataOk(w, b))
    && (forall k: Key | k.dev != 0 :: DiskOk(w, k))
  }

  lemma GetFits(w: World, dev: U32, blockno: U32)
    requires Inv(w) && Fits(w) && Allowed(w, EGet(dev, blockno)) && Disciplined(w, EGet(dev, blockno))
    ensures Sized(Next(w, EGet(dev, blockno))) && Fits(Next(w, EGet(dev, blockno)))
  {
    NextInv(w, EGet(dev, blockno));
    GetShape(w, dev, blockno);
    hide Choose, Get, Next, WellFormed, OnlyAt, Moved, LruOrder, Placed, Untouched, Accounted, UniqueKeys;
  }

  lemma Unreferenced(w: World, b: nat)
    requires Sized(w) && Accounted(w) && Fits(w) && b < |w.c.bufs| && w.c.bufs[b].refcnt == 0
    ensures Refs(w, b) == 0
  {
  }

  lemma GetCoherent(w: World, dev: U32, blockno: U32)
    requires Inv(w) && Coherent(w) && Allowed(w, EGet(dev, blockno)) && Disciplined(w, EGet(dev, blockno))
    ensures Sized(Next(w, EGet(dev, blockno))) && Coherent(Next(w, EGet(dev, blockno)))
  {
    var w' := Next(w, EGet(dev, blockno));
    var b := Chosen(w.c, Choose(w.c, dev, blockno));
    GetFits(w, dev, blockno);
    GetShape(w, dev, blockno);
    if w.c.bufs[b].refcnt == 0 {
      Unreferenced(w, b);
    }
    hide Inv, Choose, Next, Get, OnlyAt, Moved, WellFormed, Fits;
    GainCoherent(w, w', b, w'.c.bufs[b]);
  }

  // b gains a reference, or was unreferenced and loses its key and data.
  lemma GainCoherent(w: World, w': World, b: nat, x: Buf)
    requires Sized(w) && Coherent(w) && Sized(w') && Fits(w') && OnlyAt(w, w', b, x)
    requires w'.data == w.data && w'.disk == w.disk && w'.wrote == w.wrote
    requires if x.valid then x == w.c.bufs[b].(refcnt := x.refcnt) && Refs(w', b) >= Refs(w, b)
             else Refs(w, b) == 0 || x == w.c.bufs[b].(refcnt := x.refcnt)
    ensures Coherent(w')
  {
    hide WellFormed, Fits;
    forall k: Key | k.dev != 0
      ensures DiskOk(w', k)
    {
      assert DiskOk(w, k);
      if c :| 0 <= c < |w.c.bufs| && KeyOf(w.c.bufs[c]) == k && w.c.bufs[c].valid && Refs(w, c) > 0 {
        assert KeyOf(w'.c.bufs[c]) == k && w'.c.bufs[c].valid && Refs(w', c) > 0;
      }
    }
    forall c: nat | c < |w'.c.bufs|
      ensures DataOk(w', c)
    {
      assert DataOk(w, c);
    }
  }

  // Every event but bget keeps the keys and the rings' buffers.
  ghost predicate Quiet(w: World, w': World)
    requires Sized(w)
  {
    && Sized(w') && |w'.c.bufs| == |w.c.bufs|
    && forall b | 0 <= b < |w.c.bufs| :: KeyOf(w'.c.bufs[b]) == KeyOf(w.c.bufs[b])
  }

  lemma NextQuiet(w: World, e: Event)
    requires Inv(w) && Fits(w) && Allowed(w, e) && Disciplined(w, e) && !e.EGet?
    ensures Quiet(w, Next(w, e)) && Fits(Next(w, e))
  {
    hide Inv, Sized, WellFormed, RingOf, PosOf, Move;
    NextSized(w, e);
    QuietShape(w, e);
  }

  lemma NextSized(w: World, e: Event)
    requires Inv(w) && Allowed(w, e)
    ensures Sized(w) && Sized(Next(w, e))
  {
    hide Sized, Allowed, Next;
    NextInv(w, e);
  }

  lemma QuietShape(w: World, e: Event)
    requires Sized(w) && Fits(w) && Allowed(w, e) && Disciplined(w, e) && !e.EGet?
    ensures |Next(w, e).c.bufs| == |w.c.bufs| == |Next(w, e).pend| == |Next(w, e).pins|
    ensures forall b | 0 <= b < |w.c.bufs| ::
              KeyOf(Next(w, e).c.bufs[b]) == KeyOf(w.c.bufs[b]) && Refs(Next(w, e), b) < TWO32
  {
    hide WellFormed, RingOf, PosOf, Move;
    forall b | 0 <= b < |w.c.bufs|
      ensures KeyOf(Next(w, e).c.bufs[b]) == KeyOf(w.c.bufs[b]) && Refs(Next(w, e), b) < TWO32
    {
      assert Refs(w, b) < TWO32;
    }
  }

  lemma WriteCoherent(w: World, b: nat, v: int)
    requires Inv(w) && Coherent(w) && Allowed(w, EWrite(b, v))
    requires Quiet(w, Next(w, EWrite(b, v))) && Fits(Next(w, EWrite(b, v)))
    ensures Coherent(Next(w, EWrite(b, v)))
  {
    var w' := Next(w, EWrite(b, v));
    hide WellFormed, Fits, Quiet, LruOrder, Placed, Untouched, Accounted;
    forall k: Key | k.dev != 0
      ensures DiskOk(w', k)
    {
      assert DiskOk(w, k);
      assert KeyOf(w'.c.bufs[b]) == KeyOf(w.c.bufs[b]) && Refs(w', b) > 0;
    }
    forall c: nat | c < |w'.c.bufs|
      ensures DataOk(w', c)
    {
      assert DataOk(w, c);
    }
  }

  lemma FillCoherent(w: World, b: nat)
    requires Inv(w) && Coherent(w) && Allowed(w, EFill(b))
    requires Quiet(w, Next(w, EFill(b))) && Fits(Next(w, EFill(b)))
    ensures Coherent(Next(w, EFill(b)))
  {
    var w' := Next(w, EFill(b));
    hide WellFormed, Fits, Quiet, LruOrder, Placed, Untouched, Accounted;
    forall k: Key | k.dev != 0
      ensures DiskOk(w', k)
    {
      assert DiskOk(w, k);
      if c :| 0 <= c < |w.c.bufs| && KeyOf(w.c.bufs[c]) == k && w.c.bufs[c].valid && Refs(w, c) > 0 {
        assert KeyOf(w'.c.bufs[c]) == k && Refs(w', c) > 0;
      }
    }
    forall c: nat | c < |w'.c.bufs|
      ensures DataOk(w', c)
    {
      assert DataOk(w, c);
      if w.c.bufs[b].dev != 0 {
        assert DiskOk(w, KeyOf(w.c.bufs[b]));
      }
    }
  }

  lemma PlainShape(w: World, e: Event)
    requires Sized(w) && Fits(w) && Allowed(w, e) && Disciplined(w, e)
    requires !e.EGet? && !e.EWrite? && !e.EFill? && Quiet(w, Next(w, e))
    ensures var w', b := Next(w, e), e.b; var key := KeyOf(w.c.bufs[b]);
            && w'.data == w.data && w'.wrote == w.wrote
            && (forall c | 0 <= c < |w.c.bufs| ::
                  w'.c.bufs[c].valid == w.c.bufs[c].valid && (c != b ==> Refs(w', c) == Refs(w, c)))
            && (w'.disk == w.disk || (e.EFlush? && w'.disk == w.disk[key := w.data[b]]))
            && (Refs(w', b) == 0 && w.c.bufs[b].valid ==> At(w.disk, key) == w.data[b])
            && (e.EFlush? ==> w.c.bufs[b].valid)
  {
    hide WellFormed, RingOf, PosOf, Move;
  }

  // Flushing, or passing references on or back.
  lemma PlainCoherent(w: World, e: Event)
    requires Inv(w) && Coherent(w) && Allowed(w, e) && Disciplined(w, e)
    requires !e.EGet? && !e.EWrite? && !e.EFill?
    requires Quiet(w, Next(w, e)) && Fits(Next(w, e))
    ensures Coherent(Next(w, e))
  {
    var w', b := Next(w, e), e.b;
    assert DataOk(w, b);
    PlainShape(w, e);
    hide Inv, WellFormed, Fits, Next, Allowed, Disciplined;
    forall k: Key | k.dev != 0
      ensures DiskOk(w', k)
    {
      assert DiskOk(w, k);
      if c :| 0 <= c < |w.c.bufs| && KeyOf(w.c.bufs[c]) == k && w.c.bufs[c].valid && Refs(w, c) > 0 {
        assert KeyOf(w'.c.bufs[c]) == k;
      }
    }
    forall c: nat | c < |w'.c.bufs|
      ensures DataOk(w', c)
    {
      assert DataOk(w, c) && KeyOf(w'.c.bufs[c]) == KeyOf(w.c.bufs[c]);
    }
  }

  lemma NextCoherent(w: World, e: Event)
    requires Inv(w) && Coherent(w) && Allowed(w, e) && Disciplined(w, e)
    ensures Inv(Next(w, e)) && Coherent(Next(w, e))
  {
    NextInv(w, e);
    if e.EGet? {
      GetCoherent(w, e.dev, e.blockno);
    } else {
      NextQuiet(w, e);
      hide Inv, Coherent, Quiet;
      match e
      case EWrite(b, v) => WriteCoherent(w, b, v);
      case EFill(b) => FillCoherent(w, b);
      case _ => PlainCoherent(w, e);
    }
  }

  lemma InitCoherent(nbuf: nat, n: nat, disk: map<Key, int>)
    requires 0 < n < 0x8000_0000
    ensures Sized(Init(nbuf, n, disk)) && Coherent(Init(nbuf, n, disk))
  {
    InitInv(nbuf, n, disk);
    hide Sized, InitRings;
  }

  lemma {:induction false} RunCoherent(ws: seq<World>, es: seq<Event>, nbuf: nat, n: nat, disk: map<Key, int>, i: nat)
    requires IsRun(ws, es, nbuf, n, disk) && i < |ws|
    requires forall j | 0 <= j < i :: Disciplined(ws[j], es[j])
    ensures Inv(ws[i]) && Coherent(ws[i])
  {
    if i == 0 {
      InitInv(nbuf, n, disk);
      InitCoherent(nbuf, n, disk);
    } else {
      RunCoherent(ws, es, nbuf, n, disk, i - 1);
      assert ws[i] == Next(ws[i - 1], es[i - 1]);
      NextCoherent(ws[i - 1], es[i - 1]);
    }
  }

  // At any time of a disciplined run, a valid buffer shows its block as last
  // written by anyone, and a block nobody references is up to date on disk.
  lemma ReadersSeeLastWrite(ws: seq<World>, es: seq<Event>, nbuf: nat, n: nat, disk: map<Key, int>, i: nat, k: Key)
    requires IsRun(ws, es, nbuf, n, disk) && i < |ws| && k.dev != 0
    requires forall j | 0 <= j < i :: Disciplined(ws[j], es[j])
    ensures Sized(ws[i])
    ensures forall b | 0 <= b < |ws[i].c.bufs| && KeyOf(ws[i].c.bufs[b]) == k && ws[i].c.bufs[b].valid ::
              ws[i].data[b] == At(ws[i].wrote, k)
    ensures (forall b | 0 <= b < |ws[i].c.bufs| && KeyOf(ws[i].c.bufs[b]) == k :: Refs(ws[i], b) == 0)
            ==> At(ws[i].disk, k) == At(ws[i].wrote, k)
  {
    RunCoherent(ws, es, nbuf, n, disk, i);
    var w := ws[i];
    assert DiskOk(w, k);
    forall b | 0 <= b < |w.c.bufs| && KeyOf(w.c.bufs[b]) == k && w.c.bufs[b].valid
      ensures w.data[b] == At(w.wrote, k)
    {
      assert DataOk(w, b);
    }
  }
}
