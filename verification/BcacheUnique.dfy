/** When interleaved bgets keep every block in one buffer: exactly if no search of
    an own ring fails while another thread's has failed for the same block and that
    thread has not yet linked a buffer in. */
module BcacheUnique {
  import opened Rows
  import opened BufRings
  import opened Bcache
  import opened BcacheProtocol

  // Thread t has searched block k's own ring in vain, and has not yet linked in a
  // buffer for it.
  ghost predicate Misses(s: State, t: nat, k: Key)
    requires t < |s.pcs|
  {
    match s.pcs[t]
    case GetMiss(dev, blockno) => k == Key(dev, blockno)
    case StealWait(dev, blockno, _) => k == Key(dev, blockno)
    case StealLook(dev, blockno, _) => k == Key(dev, blockno)
    case StealMiss(dev, blockno, _) => k == Key(dev, blockno)
    case MoveWait(b, _, _) => b < |s.bufs| && k == KeyOf(s.bufs[b])
    case MoveLink(b, _, _) => b < |s.bufs| && k == KeyOf(s.bufs[b])
    case _ => false
  }

  // ... nor found one yet.
  predicate Missed(pc: Pc) { pc.GetMiss? || pc.StealWait? || pc.StealLook? || pc.StealMiss? }

  // A buffer that ever had a block of a real device is on the ring of that block,
  // also when nobody references it.
  ghost predicate HomePlaced(s: State)
    requires Sized(s)
  {
    forall b: nat | b < |s.bufs| && s.bufs[b].dev != 0 && b !in s.transit ::
      b in s.rings[Home(s.bufs[b].blockno, |s.rings|)]
  }

  ghost predicate Absent(bufs: seq<Buf>, k: Key) {
    forall b | 0 <= b < |bufs| :: KeyOf(bufs[b]) != k
  }

  // What was looked for on its own ring in vain is still in no buffer.
  ghost predicate StillAbsent(s: State) {
    forall t: nat, k: Key | t < |s.pcs| && Missed(s.pcs[t]) && Misses(s, t, k) && k.dev != 0 :: Absent(s.bufs, k)
  }

  ghost predicate OneMisses(s: State) {
    forall t: nat, u: nat, k: Key | t < |s.pcs| && u < |s.pcs| && t != u && k.dev != 0 ::
      !(Misses(s, t, k) && Misses(s, u, k))
  }

  ghost predicate Unique(s: State)
    requires Sized(s)
  {
    HomePlaced(s) && UniqueKeys(s.bufs) && StillAbsent(s) && OneMisses(s)
  }

  // No thread misses block k; none but t.
  ghost predicate NoneMisses(s: State, k: Key) {
    forall u: nat | u < |s.pcs| :: !Misses(s, u, k)
  }

  ghost predicate NoneElse(s: State, t: nat, k: Key) {
    forall u: nat | u < |s.pcs| && u != t :: !Misses(s, u, k)
  }

  // If t now searches its own ring for a block that it will not find there, no thread
  // misses the block.
  ghost predicate Careful(s: State, t: nat)
    requires Enabled(s, t)
  {
    var pc := s.pcs[t];
    pc.GetLook? && pc.dev != 0 ==>
      var ring := s.rings[Home(pc.blockno, |s.rings|)];
      FirstIn(ring, Matching(s.bufs, pc.dev, pc.blockno)) == |ring| ==> NoneMisses(s, Key(pc.dev, pc.blockno))
  }

  // A search of the own ring, while no thread misses the block, is a lookup among
  // all buffers: it finds the block exactly if some buffer has it.
  lemma LookIsLookup(s: State, t: nat)
    requires Inv(s) && Unique(s) && t < |s.pcs| && s.pcs[t].GetLook? && s.pcs[t].dev != 0
    requires NoneMisses(s, Key(s.pcs[t].dev, s.pcs[t].blockno))
    ensures var pc := s.pcs[t];
            var ring := s.rings[Home(pc.blockno, |s.rings|)];
            FirstIn(ring, Matching(s.bufs, pc.dev, pc.blockno)) < |ring|
            <==> exists b :: 0 <= b < |s.bufs| && KeyOf(s.bufs[b]) == Key(pc.dev, pc.blockno)
  {
    hide Partition, LocksOk, PcsOk, Placed, Accounted, Home, UniqueKeys, StillAbsent;
    var pc := s.pcs[t];
    var ring := s.rings[Home(pc.blockno, |s.rings|)];
    var i := FirstIn(ring, Matching(s.bufs, pc.dev, pc.blockno));
    if i < |ring| {
      assert KeyOf(s.bufs[ring[i]]) == Key(pc.dev, pc.blockno);
    }
    forall b: nat | b < |s.bufs| && KeyOf(s.bufs[b]) == Key(pc.dev, pc.blockno)
      ensures i < |ring|
    {
      if b in s.transit {
        var u :| 0 <= u < |s.pcs| && Moving(s.pcs[u]) && s.pcs[u].b == b;
        assert Misses(s, u, Key(pc.dev, pc.blockno));
      } else {
        assert b in ring && b in Matching(s.bufs, pc.dev, pc.blockno);
      }
    }
  }

  /* Steps that give a buffer its key. */

  // From s to s' thread t gives the unreferenced buffer b the key it looked for.
  ghost predicate Rekeying(s: State, s': State, t: nat, b: nat, x: Buf) {
    && t < |s.pcs| && b < |s.bufs| && s.bufs[b].refcnt == 0 && b !in s.transit
    && s'.bufs == s.bufs[b := x]
    && |s'.pcs| == |s.pcs| && s'.pcs == s.pcs[t := s'.pcs[t]] && !Missed(s'.pcs[t])
    && (x.dev != 0 ==> NoneElse(s, t, KeyOf(x)))
    && (forall k :: Misses(s', t, k) ==> k == KeyOf(x))
  }

  lemma OthersMiss(s: State, s': State, t: nat, b: nat, x: Buf, u: nat, k: Key)
    requires Rekeying(s, s', t, b, x) && TransitOk(s) && u < |s.pcs| && u != t
    ensures Misses(s', u, k) <==> Misses(s, u, k)
  {
  }

  lemma RekeyUnique(s: State, s': State, t: nat, b: nat, x: Buf)
    requires Rekeying(s, s', t, b, x) && TransitOk(s) && Sized(s) && Unique(s)
    requires x.dev != 0 ==> Absent(s.bufs, KeyOf(x))
    ensures UniqueKeys(s'.bufs) && StillAbsent(s') && OneMisses(s')
  {
    hide HomePlaced, TransitOk, Misses;
    forall u: nat, k: Key | u < |s.pcs| && u != t
      ensures Misses(s', u, k) <==> Misses(s, u, k)
    {
      OthersMiss(s, s', t, b, x, u, k);
    }
  }

  lemma OthersDoNot(s: State, t: nat, k: Key)
    requires OneMisses(s) && t < |s.pcs| && Misses(s, t, k)
    ensures k.dev != 0 ==> NoneElse(s, t, k)
  {
  }

  lemma StealUnique(s: State, t: nat)
    requires Inv(s) && Unique(s) && Enabled(s, t) && s.pcs[t].StealLook? && Sized(Own(s, t))
    ensures Unique(Own(s, t))
  {
    hide Inv, UniqueKeys, OneMisses, Home, Probe, FirstIn, Free, LocksOk, Accounted, Placed, PcsOk, OnlyBuffers;
    Has(s, t);
    var s', pc := Own(s, t), s.pcs[t];
    var k := Probe(pc.blockno, pc.i, |s.rings|);
    var j := FirstIn(s.rings[k], Free(s.bufs));
    if j < |s.rings[k]| {
      var b, x := s.rings[k][j], s'.bufs[s.rings[k][j]];
      Found(s, k, j);
      IsFree(s.bufs, b);
      assert Misses(s, t, KeyOf(x));
      OthersDoNot(s, t, KeyOf(x));
      RekeyUnique(s, s', t, b, x);
      WithoutMembers(s.rings[k], j);
    } else {
      QuietUnique(s, s', t);
    }
  }

  lemma LookUnique(s: State, t: nat)
    requires Inv(s) && Unique(s) && Enabled(s, t) && s.pcs[t].GetLook? && Sized(Own(s, t)) && Careful(s, t)
    ensures Unique(Own(s, t))
  {
    hide Inv, UniqueKeys, StillAbsent, OneMisses, Home, FirstIn, LastIn, Free, Matching;
    hide LocksOk, Accounted, Placed, PcsOk, Partition;
    Has(s, t);
    var s', pc := Own(s, t), s.pcs[t];
    var home := Home(pc.blockno, |s.rings|);
    var ring := s.rings[home];
    var i, j := FirstIn(ring, Matching(s.bufs, pc.dev, pc.blockno)), LastIn(ring, Free(s.bufs));
    if pc.dev != 0 && i == |ring| {
      LookIsLookup(s, t);
    }
    if i < |ring| || j < 0 {
      if i < |ring| {
        Found(s, home, i);
      }
      QuietUnique(s, s', t);
    } else {
      var b, x := ring[j], s'.bufs[ring[j]];
      Found(s, home, j);
      IsFree(s.bufs, b);
      RekeyUnique(s, s', t, b, x);
    }
  }

  /* Steps that do not. */

  // Keys stay, and t does not begin to miss a block that another misses or that is there.
  lemma QuietUnique(s: State, s': State, t: nat)
    requires Sized(s) && Unique(s) && t < |s.pcs| == |s'.pcs| && s'.pcs == s.pcs[t := s'.pcs[t]]
    requires |s'.bufs| == |s.bufs| && forall b | 0 <= b < |s.bufs| :: KeyOf(s'.bufs[b]) == KeyOf(s.bufs[b])
    requires forall k: Key | Misses(s', t, k) && k.dev != 0 :: Misses(s, t, k) || NoneElse(s, t, k)
    requires Missed(s'.pcs[t]) ==>
               forall k: Key | Misses(s', t, k) && k.dev != 0 ::
                 (Missed(s.pcs[t]) && Misses(s, t, k)) || Absent(s.bufs, k)
    ensures UniqueKeys(s'.bufs) && StillAbsent(s') && OneMisses(s')
    ensures s'.rings == s.rings && s'.transit == s.transit && Sized(s') ==> HomePlaced(s')
  {
    hide Misses;
    forall u: nat, k: Key | u < |s.pcs| && u != t
      ensures Misses(s', u, k) <==> Misses(s, u, k)
    {
      MissesSame(s, s', u, k);
    }
    assert forall k :: Absent(s'.bufs, k) <==> Absent(s.bufs, k);
  }

  lemma MissesSame(s: State, s': State, u: nat, k: Key)
    requires u < |s.pcs| && u < |s'.pcs| && s'.pcs[u] == s.pcs[u]
    requires |s'.bufs| == |s.bufs| && forall b | 0 <= b < |s.bufs| :: KeyOf(s'.bufs[b]) == KeyOf(s.bufs[b])
    ensures Misses(s', u, k) <==> Misses(s, u, k)
  {
  }

  // All other steps of bget, and those of brelse, bpin and bunpin.
  lemma OtherUnique(s: State, t: nat)
    requires Inv(s) && Unique(s) && Enabled(s, t) && !Searches(s.pcs[t]) && Sized(Own(s, t))
    ensures Unique(Own(s, t))
  {
    hide Inv, HomePlaced, UniqueKeys, StillAbsent, OneMisses, Home, Probe, Free, Matching, FirstIn, LastIn;
    hide LocksOk, Accounted, Placed, PcsOk, Partition, Move, PosOf, Inc, Dec;
    Has(s, t);
    var s' := Own(s, t);
    QuietUnique(s, s', t);
    if Changes(s.pcs[t]) {
      ChangeHome(s, t);
    }
  }

  lemma ChangeHome(s: State, t: nat)
    requires Inv(s) && HomePlaced(s) && Enabled(s, t) && Changes(s.pcs[t]) && Sized(Own(s, t))
    ensures HomePlaced(Own(s, t))
  {
    hide Inv, LocksOk, Accounted, Placed, PcsOk, Partition, Home, Probe, Move, PosOf, Inc, Dec;
    Has(s, t);
    if s.pcs[t].OpDo? {
      OnItsRing(s, t);
      var k := s.pcs[t].k;
      MoveMembers(s.rings, |s.bufs|, s.transit, k, PosOf(s.rings[k], s.pcs[t].b), k);
    }
  }

  lemma StepUnique(s: State, t: nat)
    requires Inv(s) && Unique(s) && Enabled(s, t) && Room(s, t) && Careful(s, t)
    ensures Inv(Own(s, t)) && Unique(Own(s, t))
  {
    hide Inv, Unique, Enabled, Own, Room, Careful;
    StepInv(s, t);
    InvSized(Own(s, t));
    Kinds(s, t);
    if Searches(s.pcs[t]) {
      if s.pcs[t].GetLook? { LookUnique(s, t); } else { StealUnique(s, t); }
    } else {
      OtherUnique(s, t);
    }
  }

  lemma InvSized(s: State)
    requires Inv(s)
    ensures Sized(s)
  {
  }

  // A step breaks it if it fails to find a block that another thread misses.
  lemma CarelessBreaks(s: State, t: nat)
    requires Inv(s) && Unique(s) && Enabled(s, t) && !Careful(s, t) && Sized(Own(s, t))
    ensures !Unique(Own(s, t))
  {
    hide Inv, HomePlaced, Home, FirstIn, LastIn, Free, Matching, LocksOk, Accounted, Placed, PcsOk, Partition;
    Has(s, t);
    var s', pc := Own(s, t), s.pcs[t];
    var k := Key(pc.dev, pc.blockno);
    var home := Home(pc.blockno, |s.rings|);
    var j := LastIn(s.rings[home], Free(s.bufs));
    var u: nat :| u < |s.pcs| && Misses(s, u, k);
    if j < 0 {
      assert Misses(s', t, k) && Misses(s', u, k);
    } else {
      var b := s.rings[home][j];
      Found(s, home, j);
      IsFree(s.bufs, b);
      assert KeyOf(s'.bufs[b]) == k;
      if Missed(s.pcs[u]) {
        assert Misses(s', u, k);
      } else {
        assert KeyOf(s'.bufs[s.pcs[u].b]) == k;
      }
    }
  }

  lemma CallUnique(s: State, t: nat, a: Action)
    requires Inv(s) && Unique(s) && Allowed(s, t, a) && !a.Step?
    ensures Inv(Next(s, t, a)) && Unique(Next(s, t, a))
  {
    hide Inv, Home;
    CallInv(s, t, a);
    forall u: nat, k: Key | u < |s.pcs| && u != t
      ensures Misses(Next(s, t, a), u, k) <==> Misses(s, u, k)
    {
      MissesSame(s, Next(s, t, a), u, k);
    }
  }

  // Whatever any thread does keeps it, exactly if the step is careful.
  lemma NextUniqueIff(s: State, t: nat, a: Action)
    requires Inv(s) && Unique(s) && Allowed(s, t, a)
    ensures Inv(Next(s, t, a)) && (Unique(Next(s, t, a)) <==> (a.Step? ==> Careful(s, t)))
  {
    hide Inv, Unique, Careful;
    NextInv(s, t, a);
    if !a.Step? {
      CallUnique(s, t, a);
    } else if Careful(s, t) {
      StepUnique(s, t);
    } else {
      InvSized(Own(s, t));
      CarelessBreaks(s, t);
    }
  }

  /* Runs. */

  ghost predicate FollowsCarefully(r: State, s: State) {
    exists t, a :: Allowed(r, t, a) && (a.Step? ==> Careful(r, t)) && s == Next(r, t, a)
  }

  ghost predicate ReachedCarefully(s: State, nbuf: nat, n: nat, threads: nat, steps: nat)
    requires 0 < n
    decreases steps
  {
    if steps == 0 then s == Init(nbuf, n, threads)
    else exists r :: ReachedCarefully(r, nbuf, n, threads, steps - 1) && FollowsCarefully(r, s)
  }

  lemma FollowsUnique(r: State, s: State)
    requires Inv(r) && Unique(r) && FollowsCarefully(r, s)
    ensures Inv(s) && Unique(s)
  {
    hide Inv, Unique, Next, Careful, Enabled, Room;
    var t, a :| Allowed(r, t, a) && (a.Step? ==> Careful(r, t)) && s == Next(r, t, a);
    NextUniqueIff(r, t, a);
  }

  lemma InitUnique(nbuf: nat, n: nat, threads: nat)
    requires 0 < n < 0x8000_0000
    ensures Inv(Init(nbuf, n, threads)) && Unique(Init(nbuf, n, threads))
  {
    hide Inv, InitRings;
    InitInv(nbuf, n, threads);
  }

  // In every state of every such run no two buffers have the same block of a
  // real device.
  lemma {:induction false} RunUnique(s: State, nbuf: nat, n: nat, threads: nat, steps: nat)
    requires 0 < n < 0x8000_0000 && ReachedCarefully(s, nbuf, n, threads, steps)
    ensures Inv(s) && Unique(s)
    decreases steps
  {
    hide FollowsCarefully, Inv, Unique, Init;
    if steps == 0 {
      InitUnique(nbuf, n, threads);
    } else {
      var r :| ReachedCarefully(r, nbuf, n, threads, steps - 1) && FollowsCarefully(r, s);
      RunUnique(r, nbuf, n, threads, steps - 1);
      FollowsUnique(r, s);
    }
  }

  lemma OneBufferPerBlock(s: State, nbuf: nat, n: nat, threads: nat, steps: nat)
    requires 0 < n < 0x8000_0000 && ReachedCarefully(s, nbuf, n, threads, steps)
    ensures UniqueKeys(s.bufs)
  {
    RunUnique(s, nbuf, n, threads, steps);
    hide Inv, UniqueKeys;
  }
}
