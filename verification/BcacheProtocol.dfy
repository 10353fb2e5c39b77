/** The hashed buffer cache under concurrency: any number of threads run bget,
    brelse, bpin and bunpin, and every acquire and release of a bucket lock is a
    step, as is what is done between them. A stolen buffer is in transit between
    leaving one ring and entering the other. */
module BcacheProtocol {
  import opened Rows
  import opened BufRings
  import opened Bcache
  import BcacheRuns

  datatype Op = Relse | Pin | Unpin

  // What a thread does next; the comments say which bucket locks it holds.
  datatype Pc =
    | Idle
    | GetWait(dev: U32, blockno: U32)               // none; acquire the own bucket's
    | GetLook(dev: U32, blockno: U32)               // own bucket; the two searches
    | GetMiss(dev: U32, blockno: U32)               // own bucket; release it
    | StealWait(dev: U32, blockno: U32, i: nat)     // none; acquire that of probe i
    | StealLook(dev: U32, blockno: U32, i: nat)     // probe i; search, re-key and unlink
    | StealMiss(dev: U32, blockno: U32, i: nat)     // probe i; release it
    | MoveWait(b: nat, blockno: U32, i: nat)        // probe i; acquire the own bucket's
    | MoveLink(b: nat, blockno: U32, i: nat)        // probe i and own; link in
    | MoveHome(b: nat, blockno: U32, i: nat)        // probe i and own; release the own
    | GetDone(b: nat, k: nat)                       // bucket k; release it, return b
    | OpWait(op: Op, b: nat, k: nat)                // none; acquire bucket k's
    | OpDo(op: Op, b: nat, k: nat)                  // bucket k; change the count, move to front
    | OpDone(op: Op, b: nat, k: nat)                // bucket k; release it
    | Halted                                        // bget found no buffer

  datatype Holder = Nobody | By(t: nat)

  // refs: the references given out by bget and bpin and not yet given back.
  datatype State = State(rings: Rings, bufs: seq<Buf>, lock: seq<Holder>, pcs: seq<Pc>, refs: multiset<nat>,
                         transit: set<nat>)

  ghost predicate Sized(s: State) {
    0 < |s.rings| == |s.lock| < 0x8000_0000
  }

  function Home(blockno: U32, n: nat): (k: nat)
    requires n > 0
    ensures k < n
  {
    blockno % n
  }

  // The locks a thread holds.
  function Locks(pc: Pc, n: nat): set<nat>
    requires n > 0
  {
    match pc
    case GetLook(_, blockno) => {Home(blockno, n)}
    case GetMiss(_, blockno) => {Home(blockno, n)}
    case StealLook(_, blockno, i) => {Probe(blockno, i, n)}
    case StealMiss(_, blockno, i) => {Probe(blockno, i, n)}
    case MoveWait(_, blockno, i) => {Probe(blockno, i, n)}
    case MoveLink(_, blockno, i) => {Probe(blockno, i, n), Home(blockno, n)}
    case MoveHome(_, blockno, i) => {Probe(blockno, i, n), Home(blockno, n)}
    case GetDone(_, k) => {k}
    case OpDo(_, _, k) => {k}
    case OpDone(_, _, k) => {k}
    case _ => {}
  }

  // The references to b a thread carries inside an operation.
  function Weight(pc: Pc, b: nat): nat {
    match pc
    case MoveWait(b', _, _) => if b' == b then 1 else 0
    case MoveLink(b', _, _) => if b' == b then 1 else 0
    case MoveHome(b', _, _) => if b' == b then 1 else 0
    case GetDone(b', _) => if b' == b then 1 else 0
    case OpWait(_, b', _) => if b' == b then 1 else 0
    case OpDo(_, b', _) => if b' == b then 1 else 0
    case OpDone(op, b', _) => if b' == b && op.Pin? then 2 else 0
    case _ => 0
  }

  function Carried(pcs: seq<Pc>, b: nat): nat {
    if pcs == [] then 0 else Weight(pcs[0], b) + Carried(pcs[1..], b)
  }

  // b is off its old ring and not yet on the new one.
  predicate Moving(pc: Pc) { pc.MoveWait? || pc.MoveLink? }

  function References(s: State, b: nat): nat {
    s.refs[b] + Carried(s.pcs, b)
  }

  /* Steps. */

  ghost predicate Enabled(s: State, t: nat) {
    && Sized(s) && t < |s.pcs|
    && var n, pc := |s.rings|, s.pcs[t];
       match pc
       case Idle => false
       case Halted => false
       case GetWait(_, blockno) => s.lock[Home(blockno, n)] == Nobody
       case StealWait(_, blockno, i) => s.lock[Probe(blockno, i, n)] == Nobody
       case MoveWait(_, blockno, _) => s.lock[Home(blockno, n)] == Nobody
       case MoveLink(b, _, _) => b < |s.bufs|
       case GetDone(b, k) => k < n
       case OpWait(_, b, k) => k < n && b < |s.bufs| && s.lock[k] == Nobody
       case OpDo(_, b, k) => k < n && b < |s.bufs| && b in s.rings[k]
       case OpDone(_, b, k) => k < n
       case StealLook(_, blockno, i) =>
         var ring := s.rings[Probe(blockno, i, n)];
         FirstIn(ring, Free(s.bufs)) < |ring| ==> ring[FirstIn(ring, Free(s.bufs))] < |s.bufs|
       case GetLook(dev, blockno) =>
         var ring := s.rings[Home(blockno, n)];
         && (FirstIn(ring, Matching(s.bufs, dev, blockno)) < |ring| ==>
               ring[FirstIn(ring, Matching(s.bufs, dev, blockno))] < |s.bufs|)
         && (LastIn(ring, Free(s.bufs)) >= 0 ==> ring[LastIn(ring, Free(s.bufs))] < |s.bufs|)
       case _ => true
  }

  function At(s: State, t: nat, pc: Pc): State
    requires t < |s.pcs|
  {
    s.(pcs := s.pcs[t := pc])
  }

  function Locked(s: State, k: nat, h: Holder): State
    requires k < |s.lock|
  {
    s.(lock := s.lock[k := h])
  }

  function Keyed(s: State, b: nat, dev: U32, blockno: U32): State
    requires b < |s.bufs|
  {
    s.(bufs := s.bufs[b := Buf(dev, blockno, 1, false, s.bufs[b].sleeper)])
  }

  function Counted(s: State, b: nat, refcnt: U32): State
    requires b < |s.bufs|
  {
    s.(bufs := s.bufs[b := s.bufs[b].(refcnt := refcnt)])
  }

  // The step of thread t does not count past 2^32 - 1.
  ghost predicate Room(s: State, t: nat)
    requires Enabled(s, t)
  {
    match s.pcs[t]
    case GetLook(dev, blockno) =>
      var ring := s.rings[Home(blockno, |s.rings|)];
      var i := FirstIn(ring, Matching(s.bufs, dev, blockno));
      i < |ring| ==> s.bufs[ring[i]].refcnt < TWO32 - 1
    case OpDo(op, b, _) => op.Pin? ==> s.bufs[b].refcnt < TWO32 - 1
    case _ => true
  }

  // The next step of thread t.
  ghost function Own(s: State, t: nat): State
    requires Enabled(s, t)
  {
    var n := |s.rings|;
    match s.pcs[t]
    case GetWait(dev, blockno) => At(Locked(s, Home(blockno, n), By(t)), t, GetLook(dev, blockno))
    case GetLook(dev, blockno) =>
      var home := Home(blockno, n);
      var ring := s.rings[home];
      var i := FirstIn(ring, Matching(s.bufs, dev, blockno));
      var j := LastIn(ring, Free(s.bufs));
      if i < |ring| then At(Counted(s, ring[i], Inc(s.bufs[ring[i]].refcnt)), t, GetDone(ring[i], home))
      else if j >= 0 then At(Keyed(s, ring[j], dev, blockno), t, GetDone(ring[j], home))
      else At(s, t, GetMiss(dev, blockno))
    case GetMiss(dev, blockno) =>
      At(Locked(s, Home(blockno, n), Nobody), t, if 1 < n then StealWait(dev, blockno, 1) else Halted)
    case StealWait(dev, blockno, i) => At(Locked(s, Probe(blockno, i, n), By(t)), t, StealLook(dev, blockno, i))
    case StealLook(dev, blockno, i) =>
      var k := Probe(blockno, i, n);
      var j := FirstIn(s.rings[k], Free(s.bufs));
      if j < |s.rings[k]| then
        var b := s.rings[k][j];
        var s' := Keyed(s, b, dev, blockno).(rings := Unlink(s.rings, k, j), transit := s.transit + {b});
        At(s', t, MoveWait(b, blockno, i))
      else At(s, t, StealMiss(dev, blockno, i))
    case StealMiss(dev, blockno, i) =>
      At(Locked(s, Probe(blockno, i, n), Nobody), t, if i + 1 < n then StealWait(dev, blockno, i + 1) else Halted)
    case MoveWait(b, blockno, i) => At(Locked(s, Home(blockno, n), By(t)), t, MoveLink(b, blockno, i))
    case MoveLink(b, blockno, i) =>
      At(s.(rings := Push(s.rings, Home(blockno, n), b), transit := s.transit - {b}), t, MoveHome(b, blockno, i))
    case MoveHome(b, blockno, i) => At(Locked(s, Home(blockno, n), Nobody), t, GetDone(b, Probe(blockno, i, n)))
    case GetDone(b, k) => At(Locked(s, k, Nobody), t, Idle).(refs := s.refs + multiset{b})
    case OpWait(op, b, k) => At(Locked(s, k, By(t)), t, OpDo(op, b, k))
    case OpDo(op, b, k) =>
      var refcnt := if op.Pin? then Inc(s.bufs[b].refcnt) else Dec(s.bufs[b].refcnt);
      var s' := At(Counted(s, b, refcnt), t, OpDone(op, b, k));
      if op.Relse? && Dec(s.bufs[b].refcnt) == 0 then s'.(rings := Move(s.rings, k, PosOf(s.rings[k], b), k)) else s'
    case OpDone(op, b, k) =>
      At(Locked(s, k, Nobody), t, Idle).(refs := if op.Pin? then s.refs + multiset{b, b} else s.refs)
  }

  datatype Action = CallGet(dev: U32, blockno: U32) | CallOp(op: Op, b: nat) | Step

  // Thread t starts an operation or goes on with one. Only a reference can be
  // given back or pinned; the bucket of b is computed before its lock is taken.
  ghost predicate Allowed(s: State, t: nat, a: Action) {
    match a
    case CallGet(_, _) => Sized(s) && t < |s.pcs| && s.pcs[t].Idle?
    case CallOp(_, b) => Sized(s) && t < |s.pcs| && s.pcs[t].Idle? && s.refs[b] > 0 && b < |s.bufs|
    case Step => Enabled(s, t) && Room(s, t)
  }

  ghost function Next(s: State, t: nat, a: Action): State
    requires Allowed(s, t, a)
  {
    match a
    case CallGet(dev, blockno) => At(s, t, GetWait(dev, blockno))
    case CallOp(op, b) =>
      At(s, t, OpWait(op, b, Home(s.bufs[b].blockno, |s.rings|))).(refs := s.refs - multiset{b})
    case Step => Own(s, t)
  }

  /* The invariant. */

  ghost predicate LocksOk(s: State)
    requires Sized(s)
  {
    LocksFit(s.lock, s.pcs, |s.rings|)
  }

  // A lock names its holder exactly if the holder is where it holds that lock.
  ghost predicate LocksFit(lock: seq<Holder>, pcs: seq<Pc>, n: nat)
    requires n > 0
  {
    && (forall t, k | 0 <= t < |pcs| && k in Locks(pcs[t], n) :: k < |lock| && lock[k] == By(t))
    && (forall k: nat | k < |lock| && lock[k].By? :: lock[k].t < |pcs| && k in Locks(pcs[lock[k].t], n))
  }

  // Buffers in transit are each in one thread's hands.
  ghost predicate TransitOk(s: State) {
    && (forall t | 0 <= t < |s.pcs| && Moving(s.pcs[t]) :: s.pcs[t].b in s.transit)
    && (forall b | b in s.transit :: b < |s.bufs| && s.bufs[b].refcnt == 1)
    && (forall b | b in s.transit :: exists t :: 0 <= t < |s.pcs| && Moving(s.pcs[t]) && s.pcs[t].b == b)
    && (forall t, u | 0 <= t < u < |s.pcs| && Moving(s.pcs[t]) && Moving(s.pcs[u]) :: s.pcs[t].b != s.pcs[u].b)
  }

  // A referenced buffer that is not in transit is on the ring of its block.
  ghost predicate Placed(s: State)
    requires Sized(s)
  {
    forall b: nat | b < |s.bufs| && s.bufs[b].refcnt > 0 && b !in s.transit ::
      b in s.rings[Home(s.bufs[b].blockno, |s.rings|)]
  }

  ghost predicate Accounted(s: State) {
    forall b: nat | b < |s.bufs| :: s.bufs[b].refcnt == References(s, b)
  }

  // What a thread knows about the buffer it is at work on.
  ghost predicate PcOk(s: State, t: nat)
    requires Sized(s) && t < |s.pcs|
  {
    var n := |s.rings|;
    match s.pcs[t]
    case MoveWait(b, blockno, i) => b < |s.bufs| && s.bufs[b].blockno == blockno && 0 < i < n
    case MoveLink(b, blockno, i) =>
      b < |s.bufs| && s.bufs[b].blockno == blockno && i < n && Probe(blockno, i, n) != Home(blockno, n)
    case MoveHome(b, blockno, i) => b < |s.bufs| && i < n && Probe(blockno, i, n) != Home(blockno, n)
    case StealWait(_, _, i) => 0 < i < n
    case StealLook(_, _, i) => 0 < i < n
    case StealMiss(_, _, i) => 0 < i < n
    case GetDone(b, k) => b < |s.bufs| && k < n
    case OpWait(_, b, k) => b < |s.bufs| && k == Home(s.bufs[b].blockno, n)
    case OpDo(_, b, k) => b < |s.bufs| && k == Home(s.bufs[b].blockno, n)
    case OpDone(_, b, k) => b < |s.bufs| && k < n
    case _ => true
  }

  ghost predicate PcsOk(s: State)
    requires Sized(s)
  {
    forall t: nat | t < |s.pcs| :: PcOk(s, t)
  }

  ghost predicate Inv(s: State) {
    && Sized(s) && LocksOk(s) && Partition(s.rings, |s.bufs|, s.transit) && TransitOk(s)
    && PcsOk(s) && Placed(s) && Accounted(s)
    && (forall b | b in s.refs :: b < |s.bufs|)
  }

  /* Counting what threads carry. */

  lemma {:induction false} CarriedUpdate(pcs: seq<Pc>, t: nat, pc: Pc, b: nat)
    requires t < |pcs|
    ensures Carried(pcs[t := pc], b) + Weight(pcs[t], b) == Carried(pcs, b) + Weight(pc, b)
  {
    var pcs' := pcs[t := pc];
    if t == 0 {
      assert pcs'[1..] == pcs[1..];
    } else {
      assert pcs'[1..] == pcs[1..][t - 1 := pc];
      CarriedUpdate(pcs[1..], t - 1, pc, b);
    }
  }

  lemma {:induction false} CarriedAtLeast(pcs: seq<Pc>, t: nat, b: nat)
    requires t < |pcs|
    ensures Weight(pcs[t], b) <= Carried(pcs, b)
  {
    if t > 0 {
      CarriedAtLeast(pcs[1..], t - 1, b);
    }
  }

  lemma {:induction false} CarriedByTwo(pcs: seq<Pc>, t: nat, u: nat, b: nat)
    requires t < u < |pcs|
    ensures Weight(pcs[t], b) + Weight(pcs[u], b) <= Carried(pcs, b)
  {
    if t == 0 {
      CarriedAtLeast(pcs[1..], u - 1, b);
    } else {
      CarriedByTwo(pcs[1..], t - 1, u - 1, b);
    }
  }

  // An unreferenced buffer is in nobody's hands.
  lemma NobodyHas(s: State, b: nat, u: nat)
    requires Accounted(s) && b < |s.bufs| && s.bufs[b].refcnt == 0 && u < |s.pcs|
    ensures Weight(s.pcs[u], b) == 0 && s.refs[b] == 0
  {
    CarriedAtLeast(s.pcs, u, b);
  }

  // A buffer in transit is in the hands of its thief only.
  lemma OnlyThief(s: State, b: nat, t: nat)
    requires Accounted(s) && TransitOk(s) && b in s.transit && t < |s.pcs| && !Moving(s.pcs[t])
    ensures Weight(s.pcs[t], b) == 0 && s.refs[b] == 0
  {
    var u :| 0 <= u < |s.pcs| && Moving(s.pcs[u]) && s.pcs[u].b == b;
    CarriedAtLeast(s.pcs, u, b);
    if t < u {
      CarriedByTwo(s.pcs, t, u, b);
    } else {
      CarriedByTwo(s.pcs, u, t, b);
    }
  }

  // A thread that changes a count finds the buffer on the ring whose lock it has.
  lemma OnItsRing(s: State, t: nat)
    requires Inv(s) && t < |s.pcs| && (s.pcs[t].OpDo? || s.pcs[t].OpWait?)
    ensures var b := s.pcs[t].b;
            && b < |s.bufs| && s.bufs[b].refcnt > 0 && b !in s.transit
            && s.pcs[t].k < |s.rings| && b in s.rings[s.pcs[t].k]
            && (s.pcs[t].OpDo? ==> s.lock[s.pcs[t].k] == By(t))
  {
    var b := s.pcs[t].b;
    assert PcOk(s, t);
    CarriedAtLeast(s.pcs, t, b);
    if b in s.transit {
      OnlyThief(s, b, t);
    }
  }

  // What the locked steps rely on holds in every state of a run: only locks make
  // a thread wait.
  lemma OnlyLocksWait(s: State, t: nat)
    requires Inv(s) && t < |s.pcs| && !s.pcs[t].Idle? && !s.pcs[t].Halted?
    requires s.pcs[t].GetWait? ==> s.lock[Home(s.pcs[t].blockno, |s.rings|)] == Nobody
    requires s.pcs[t].MoveWait? ==> s.lock[Home(s.pcs[t].blockno, |s.rings|)] == Nobody
    requires s.pcs[t].StealWait? ==> s.lock[Probe(s.pcs[t].blockno, s.pcs[t].i, |s.rings|)] == Nobody
    requires s.pcs[t].OpWait? ==> s.pcs[t].k < |s.lock| && s.lock[s.pcs[t].k] == Nobody
    ensures Enabled(s, t)
  {
    assert PcOk(s, t);
    var n := |s.rings|;
    assert forall k | 0 <= k < n :: OnlyBuffers(s.rings[k], |s.bufs|, s.transit);
    if s.pcs[t].OpDo? || s.pcs[t].OpWait? {
      OnItsRing(s, t);
    }
    hide LocksOk, TransitOk, Placed, Accounted, NoDup;
  }

  /* Every step keeps the invariant. */

  // Thread t goes from pcs[t] to pc, gets the locks it now holds and gives back
  // those it no longer does.
  lemma LocksFitNext(lock: seq<Holder>, pcs: seq<Pc>, n: nat, lock': seq<Holder>, t: nat, pc: Pc)
    requires 0 < n == |lock| == |lock'| && LocksFit(lock, pcs, n) && t < |pcs|
    requires forall k | k in Locks(pc, n) && k !in Locks(pcs[t], n) :: k < n && lock[k] == Nobody
    requires forall k: nat | k < n ::
               lock'[k] == if k in Locks(pc, n) then By(t) else if k in Locks(pcs[t], n) then Nobody else lock[k]
    ensures LocksFit(lock', pcs[t := pc], n)
  {
    hide Locks, LocksFit;
    var pcs' := pcs[t := pc];
    forall u: nat, k: nat | u < |pcs'| && k in Locks(pcs'[u], n)
      ensures HeldAt(lock', pcs', n, u, k)
    {
      if k in Locks(pcs[t], n) {
        FitsAt(lock, pcs, n, t, k);
      }
      if u != t {
        FitsAt(lock, pcs, n, u, k);
        assert k !in Locks(pc, n) && lock'[k] == lock[k];
      }
    }
    forall k: nat | k < |lock'| && lock'[k].By?
      ensures NamedAt(lock', pcs', n, k)
    {
      if k !in Locks(pc, n) {
        FitsHolder(lock, pcs, n, k);
      }
    }
    Fit(lock', pcs', n);
  }

  ghost predicate HeldAt(lock: seq<Holder>, pcs: seq<Pc>, n: nat, u: nat, k: nat)
    requires n > 0
  {
    u < |pcs| && k in Locks(pcs[u], n) ==> k < |lock| && lock[k] == By(u)
  }

  ghost predicate NamedAt(lock: seq<Holder>, pcs: seq<Pc>, n: nat, k: nat)
    requires n > 0
  {
    k < |lock| && lock[k].By? ==> lock[k].t < |pcs| && k in Locks(pcs[lock[k].t], n)
  }

  lemma Fit(lock: seq<Holder>, pcs: seq<Pc>, n: nat)
    requires n > 0
    requires forall u: nat, k: nat | u < |pcs| && k in Locks(pcs[u], n) :: HeldAt(lock, pcs, n, u, k)
    requires forall k: nat | k < |lock| && lock[k].By? :: NamedAt(lock, pcs, n, k)
    ensures LocksFit(lock, pcs, n)
  {
  }

  lemma FitsAt(lock: seq<Holder>, pcs: seq<Pc>, n: nat, u: nat, k: nat)
    requires n > 0 && LocksFit(lock, pcs, n) && u < |pcs| && k in Locks(pcs[u], n)
    ensures k < |lock| && lock[k] == By(u)
  {
  }

  lemma FitsHolder(lock: seq<Holder>, pcs: seq<Pc>, n: nat, k: nat)
    requires n > 0 && LocksFit(lock, pcs, n) && k < |lock| && lock[k].By?
    ensures lock[k].t < |pcs| && k in Locks(pcs[lock[k].t], n)
  {
  }

  lemma LocksChange(s: State, s': State, t: nat, pc: Pc)
    requires Sized(s) && Sized(s') && LocksOk(s) && t < |s.pcs| && |s'.lock| == |s.lock|
    requires s'.pcs == s.pcs[t := pc]
    requires forall k | k in Locks(pc, |s.lock|) && k !in Locks(s.pcs[t], |s.lock|) ::
               k < |s.lock| && s.lock[k] == Nobody
    requires forall k: nat | k < |s.lock| ::
               s'.lock[k] == if k in Locks(pc, |s.lock|) then By(t)
                             else if k in Locks(s.pcs[t], |s.lock|) then Nobody else s.lock[k]
    ensures LocksOk(s')
  {
    hide Locks, LocksFit;
    LocksFitNext(s.lock, s.pcs, |s.lock|, s'.lock, t, pc);
  }

  // The four kinds of steps of a thread.
  predicate Acquires(pc: Pc) { pc.GetWait? || pc.StealWait? || pc.MoveWait? || pc.OpWait? }
  predicate Releases(pc: Pc) { pc.GetMiss? || pc.StealMiss? || pc.MoveHome? || pc.GetDone? || pc.OpDone? }
  predicate Searches(pc: Pc) { pc.GetLook? || pc.StealLook? }
  predicate Changes(pc: Pc) { pc.MoveLink? || pc.OpDo? }

  lemma Has(s: State, t: nat)
    requires Inv(s) && t < |s.pcs|
    ensures Sized(s) && PcOk(s, t) && LocksOk(s) && Accounted(s) && TransitOk(s) && Placed(s)
    ensures Partition(s.rings, |s.bufs|, s.transit) && PcsOk(s)
    ensures forall k | k in Locks(s.pcs[t], |s.rings|) :: k < |s.lock| && s.lock[k] == By(t)
  {
  }

  lemma AcquireLocks(s: State, t: nat)
    requires Inv(s) && Enabled(s, t) && Acquires(s.pcs[t])
    ensures Sized(Own(s, t)) && LocksOk(Own(s, t))
  {
    hide Inv, LocksOk, Probe, Home, FirstIn, LastIn, PcOk;
    Has(s, t);
    var s' := Own(s, t);
    LocksChange(s, s', t, s'.pcs[t]);
  }

  lemma ReleaseLocks(s: State, t: nat)
    requires Inv(s) && Enabled(s, t) && Releases(s.pcs[t])
    ensures Sized(Own(s, t)) && LocksOk(Own(s, t))
  {
    hide Inv, LocksOk, Probe, Home, FirstIn, LastIn;
    Has(s, t);
    var s' := Own(s, t);
    if s.pcs[t].MoveHome? {
      LocksChange(s, s', t, s'.pcs[t]);
    } else {
      assert Locks(s'.pcs[t], |s.lock|) == {};
      LocksChange(s, s', t, s'.pcs[t]);
    }
  }

  lemma OtherLocks(s: State, t: nat)
    requires Inv(s) && Enabled(s, t) && (Searches(s.pcs[t]) || Changes(s.pcs[t]))
    ensures Sized(Own(s, t)) && LocksOk(Own(s, t))
  {
    hide Inv, LocksOk, PcOk, Own, Enabled;
    SameLocks(s, t);
    Has(s, t);
    LocksChange(s, Own(s, t), t, Own(s, t).pcs[t]);
  }

  lemma SameLocks(s: State, t: nat)
    requires Enabled(s, t) && (Searches(s.pcs[t]) || Changes(s.pcs[t]))
    ensures Sized(s) && t < |s.pcs|
    ensures var s' := Own(s, t);
            && |s'.rings| == |s.rings| && |s'.pcs| == |s.pcs| && s'.pcs == s.pcs[t := s'.pcs[t]]
            && s'.lock == s.lock && Locks(s'.pcs[t], |s.lock|) == Locks(s.pcs[t], |s.lock|)
  {
    hide Probe, Home, FirstIn, LastIn, Free, Matching, Inc, Dec, PosOf, Without;
  }

  // References given out and carried change as the counts do.
  lemma AccountedChange(s: State, s': State, t: nat)
    requires Accounted(s) && t < |s.pcs| == |s'.pcs| && s'.pcs == s.pcs[t := s'.pcs[t]] && |s'.bufs| == |s.bufs|
    requires forall b: nat | b < |s.bufs| ::
               s'.bufs[b].refcnt + s.refs[b] + Weight(s.pcs[t], b)
               == s.bufs[b].refcnt + s'.refs[b] + Weight(s'.pcs[t], b)
    ensures Accounted(s')
  {
    hide Weight;
    forall b: nat | b < |s'.bufs|
      ensures s'.bufs[b].refcnt == References(s', b)
    {
      CarriedUpdate(s.pcs, t, s'.pcs[t], b);
    }
  }

  lemma LockingAccounted(s: State, t: nat)
    requires Inv(s) && Enabled(s, t) && (Acquires(s.pcs[t]) || Releases(s.pcs[t]))
    ensures Accounted(Own(s, t)) && |Own(s, t).bufs| == |s.bufs|
  {
    hide Inv, Accounted, Probe, Home, FirstIn, LastIn, Carried, Locks, PcOk;
    Has(s, t);
    var s' := Own(s, t);
    AccountedChange(s, s', t);
  }

  lemma Counts(x: U32)
    ensures x < TWO32 - 1 ==> Inc(x) == x + 1
    ensures x > 0 ==> Dec(x) == x - 1
  {
  }

  // What a search settles on is a buffer on the ring searched.
  lemma Found(s: State, k: nat, j: int)
    requires Inv(s) && k < |s.rings| && 0 <= j < |s.rings[k]|
    ensures s.rings[k][j] in s.rings[k] && s.rings[k][j] < |s.bufs| && s.rings[k][j] !in s.transit
  {
  }

  lemma IsFree(bufs: seq<Buf>, b: nat)
    requires b in Free(bufs)
    ensures b < |bufs| && bufs[b].refcnt == 0
  {
  }

  lemma IsMatching(bufs: seq<Buf>, dev: U32, blockno: U32, b: nat)
    requires b in Matching(bufs, dev, blockno)
    ensures b < |bufs| && bufs[b].blockno == blockno
  {
  }

  lemma LookAccounted(s: State, t: nat)
    requires Inv(s) && Enabled(s, t) && Room(s, t) && s.pcs[t].GetLook?
    ensures Accounted(Own(s, t)) && |Own(s, t).bufs| == |s.bufs|
  {
    hide Inv, Accounted, Home, FirstIn, LastIn, Carried, Locks, PcOk, Free, Matching, Inc;
    Has(s, t);
    var s' := Own(s, t);
    var pc := s.pcs[t];
    var ring := s.rings[Home(pc.blockno, |s.rings|)];
    var i, j := FirstIn(ring, Matching(s.bufs, pc.dev, pc.blockno)), LastIn(ring, Free(s.bufs));
    if i < |ring| {
      Found(s, Home(pc.blockno, |s.rings|), i);
      Counts(s.bufs[ring[i]].refcnt);
    } else if j >= 0 {
      IsFree(s.bufs, ring[j]);
    }
    AccountedChange(s, s', t);
  }

  lemma StealAccounted(s: State, t: nat)
    requires Inv(s) && Enabled(s, t) && s.pcs[t].StealLook?
    ensures Accounted(Own(s, t)) && |Own(s, t).bufs| == |s.bufs|
  {
    hide Inv, Accounted, Home, Probe, FirstIn, LastIn, Carried, Locks, PcOk, Free, Matching, Unlink;
    Has(s, t);
    var s' := Own(s, t);
    var pc := s.pcs[t];
    var ring := s.rings[Probe(pc.blockno, pc.i, |s.rings|)];
    var j := FirstIn(ring, Free(s.bufs));
    if j < |ring| {
      IsFree(s.bufs, ring[j]);
    }
    AccountedChange(s, s', t);
  }

  lemma ChangeAccounted(s: State, t: nat)
    requires Inv(s) && Enabled(s, t) && Room(s, t) && Changes(s.pcs[t])
    ensures Accounted(Own(s, t)) && |Own(s, t).bufs| == |s.bufs|
  {
    hide Inv, Accounted, Home, Probe, Carried, Locks, PcOk, Push, Move, PosOf, Inc, Dec;
    Has(s, t);
    var s' := Own(s, t);
    var b := s.pcs[t].b;
    if s.pcs[t].OpDo? {
      OnItsRing(s, t);
      Counts(s.bufs[b].refcnt);
    }
    AccountedChange(s, s', t);
  }

  // What a step does to rings and transit, with everything on exactly one ring
  // or in transit before and after.
  lemma NextPartition(s: State, t: nat)
    requires Inv(s) && Enabled(s, t)
    ensures Partition(Own(s, t).rings, |Own(s, t).bufs|, Own(s, t).transit)
  {
    hide Inv, Partition, LocksOk, Accounted, Placed, PcsOk, Home, Probe, Carried;
    hide Locks, FirstIn, LastIn, Free, Matching, Push, Unlink, Move, PosOf, Inc, Dec;
    Has(s, t);
    var pc, n := s.pcs[t], |s.rings|;
    match pc
    case StealLook(_, blockno, i) =>
      var k := Probe(blockno, i, n);
      var j := FirstIn(s.rings[k], Free(s.bufs));
      if j < |s.rings[k]| {
        UnlinkPartition(s.rings, |s.bufs|, s.transit, k, j);
      }
    case MoveLink(b, blockno, i) => PushPartition(s.rings, |s.bufs|, s.transit, Home(blockno, n), b);
    case OpDo(op, b, k) => MovePartition(s.rings, |s.bufs|, s.transit, k, PosOf(s.rings[k], b), k);
    case _ =>
  }

  // Thread t goes to pc without taking up or putting down a buffer.
  lemma SameTransit(s: State, s': State, t: nat)
    requires TransitOk(s) && t < |s.pcs| == |s'.pcs| && s'.pcs == s.pcs[t := s'.pcs[t]] && s'.transit == s.transit
    requires Moving(s'.pcs[t]) <==> Moving(s.pcs[t])
    requires Moving(s.pcs[t]) ==> s'.pcs[t].b == s.pcs[t].b
    requires |s'.bufs| == |s.bufs| && forall b | b in s.transit :: s'.bufs[b].refcnt == s.bufs[b].refcnt
    ensures TransitOk(s')
  {
    forall b | b in s'.transit
      ensures exists u :: 0 <= u < |s'.pcs| && Moving(s'.pcs[u]) && s'.pcs[u].b == b
    {
      var u :| 0 <= u < |s.pcs| && Moving(s.pcs[u]) && s.pcs[u].b == b;
      assert Moving(s'.pcs[u]) && s'.pcs[u].b == b;
    }
  }

  lemma LockingTransit(s: State, t: nat)
    requires Inv(s) && Enabled(s, t) && (Acquires(s.pcs[t]) || Releases(s.pcs[t]))
    ensures TransitOk(Own(s, t))
  {
    hide Inv, TransitOk, Accounted, Probe, Home, FirstIn, LastIn, Carried, Locks, PcOk;
    Has(s, t);
    SameTransit(s, Own(s, t), t);
  }

  lemma LookTransit(s: State, t: nat)
    requires Inv(s) && Enabled(s, t) && s.pcs[t].GetLook?
    ensures TransitOk(Own(s, t))
  {
    hide Inv, TransitOk, Accounted, Home, FirstIn, LastIn, Carried, Locks, PcOk, Free, Matching, Inc;
    Has(s, t);
    var s' := Own(s, t);
    var pc := s.pcs[t];
    var ring := s.rings[Home(pc.blockno, |s.rings|)];
    var i, j := FirstIn(ring, Matching(s.bufs, pc.dev, pc.blockno)), LastIn(ring, Free(s.bufs));
    if i < |ring| {
      Found(s, Home(pc.blockno, |s.rings|), i);
    } else if j >= 0 {
      Found(s, Home(pc.blockno, |s.rings|), j);
    }
    SameTransit(s, s', t);
  }

  lemma StealTransit(s: State, t: nat)
    requires Inv(s) && Enabled(s, t) && s.pcs[t].StealLook?
    ensures TransitOk(Own(s, t))
  {
    hide Inv, Accounted, Home, Probe, FirstIn, LastIn, Carried, Locks, PcOk, Free, Matching, Unlink;
    Has(s, t);
    var s' := Own(s, t);
    var pc := s.pcs[t];
    var k := Probe(pc.blockno, pc.i, |s.rings|);
    var j := FirstIn(s.rings[k], Free(s.bufs));
    if j < |s.rings[k]| {
      Found(s, k, j);
      TakeUp(s, s', t, s.rings[k][j]);
    } else {
      SameTransit(s, s', t);
    }
  }

  lemma TakeUp(s: State, s': State, t: nat, b: nat)
    requires TransitOk(s) && t < |s.pcs| == |s'.pcs| && s'.pcs == s.pcs[t := s'.pcs[t]] && s'.transit == s.transit + {b}
    requires !Moving(s.pcs[t]) && Moving(s'.pcs[t]) && s'.pcs[t].b == b && b !in s.transit && b < |s.bufs|
    requires |s'.bufs| == |s.bufs| && s'.bufs[b].refcnt == 1
    requires forall c: nat | c < |s.bufs| && c != b :: s'.bufs[c].refcnt == s.bufs[c].refcnt
    ensures TransitOk(s')
  {
    forall c | c in s'.transit
      ensures exists u :: 0 <= u < |s'.pcs| && Moving(s'.pcs[u]) && s'.pcs[u].b == c
    {
      if c != b {
        var u :| 0 <= u < |s.pcs| && Moving(s.pcs[u]) && s.pcs[u].b == c;
        assert Moving(s'.pcs[u]) && s'.pcs[u].b == c;
      } else {
        assert Moving(s'.pcs[t]) && s'.pcs[t].b == c;
      }
    }
  }

  lemma PutDown(s: State, s': State, t: nat, b: nat)
    requires TransitOk(s) && t < |s.pcs| == |s'.pcs| && s'.pcs == s.pcs[t := s'.pcs[t]] && s'.transit == s.transit - {b}
    requires Moving(s.pcs[t]) && s.pcs[t].b == b && !Moving(s'.pcs[t]) && s'.bufs == s.bufs
    ensures TransitOk(s')
  {
    forall c | c in s'.transit
      ensures exists u :: 0 <= u < |s'.pcs| && Moving(s'.pcs[u]) && s'.pcs[u].b == c
    {
      var u :| 0 <= u < |s.pcs| && Moving(s.pcs[u]) && s.pcs[u].b == c;
      assert Moving(s'.pcs[u]) && s'.pcs[u].b == c;
    }
  }

  lemma ChangeTransit(s: State, t: nat)
    requires Inv(s) && Enabled(s, t) && Changes(s.pcs[t])
    ensures TransitOk(Own(s, t))
  {
    hide Inv, TransitOk, Accounted, Home, Probe, Carried, Locks, PcOk, Push, Move, PosOf, Inc, Dec;
    Has(s, t);
    var s' := Own(s, t);
    if s.pcs[t].OpDo? {
      OnItsRing(s, t);
      SameTransit(s, s', t);
    } else {
      PutDown(s, s', t, s.pcs[t].b);
    }
  }

  lemma Sizes(s: State, t: nat)
    requires Inv(s) && Enabled(s, t)
    ensures var s' := Own(s, t);
            |s'.rings| == |s.rings| && |s'.bufs| == |s.bufs| && |s'.pcs| == |s.pcs| && s'.pcs == s.pcs[t := s'.pcs[t]]
  {
    hide Inv, Home, Probe, Carried, FirstIn, LastIn, Free, Matching, PosOf, Inc, Dec;
  }

  // Thread t's own claim after its step.
  lemma OwnPc(s: State, t: nat)
    requires Inv(s) && Enabled(s, t)
    ensures Sized(Own(s, t)) && PcOk(Own(s, t), t)
  {
    hide Inv, Partition, LocksOk, Accounted, Placed, PcsOk, TransitOk, Home, Probe;
    hide Carried, FirstIn, LastIn, Free, Matching, Push, Unlink, Move, PosOf, Inc, Dec;
    Has(s, t);
    Sizes(s, t);
    if s.pcs[t].MoveWait? {
      NotTwice(s, t);
    }
  }

  // The own bucket's lock is not among the locks a thief already holds.
  lemma NotTwice(s: State, t: nat)
    requires Inv(s) && Enabled(s, t) && s.pcs[t].MoveWait?
    ensures Probe(s.pcs[t].blockno, s.pcs[t].i, |s.rings|) != Home(s.pcs[t].blockno, |s.rings|)
  {
  }

  // Another thread's claim only depends on the keys of buffers it carries.
  lemma OtherPc(s: State, s': State, u: nat)
    requires Sized(s) && Sized(s') && u < |s.pcs| == |s'.pcs| && PcOk(s, u) && s'.pcs[u] == s.pcs[u]
    requires |s'.rings| == |s.rings| && |s'.bufs| == |s.bufs|
    requires forall b: nat | b < |s.bufs| && Weight(s.pcs[u], b) > 0 :: s'.bufs[b].blockno == s.bufs[b].blockno
    ensures PcOk(s', u)
  {
  }

  // A step re-keys only buffers nobody has a reference to.
  lemma KeysKept(s: State, t: nat, b: nat)
    requires Inv(s) && Enabled(s, t) && b < |s.bufs| && s.bufs[b].refcnt > 0
    ensures |Own(s, t).bufs| == |s.bufs|
    ensures Own(s, t).bufs[b].dev == s.bufs[b].dev && Own(s, t).bufs[b].blockno == s.bufs[b].blockno
  {
    hide Inv, Partition, LocksOk, Accounted, Placed, PcsOk, TransitOk, Home, Probe;
    hide Carried, FirstIn, LastIn, Free, Matching, Push, Unlink, Move, PosOf, Inc, Dec;
    Has(s, t);
    var pc := s.pcs[t];
    if pc.GetLook? {
      var ring := s.rings[Home(pc.blockno, |s.rings|)];
      if LastIn(ring, Free(s.bufs)) >= 0 {
        IsFree(s.bufs, ring[LastIn(ring, Free(s.bufs))]);
      }
    } else if pc.StealLook? {
      var ring := s.rings[Probe(pc.blockno, pc.i, |s.rings|)];
      if FirstIn(ring, Free(s.bufs)) < |ring| {
        IsFree(s.bufs, ring[FirstIn(ring, Free(s.bufs))]);
      }
    }
  }

  lemma NextPcs(s: State, t: nat)
    requires Inv(s) && Enabled(s, t) && Sized(Own(s, t))
    ensures PcsOk(Own(s, t))
  {
    hide Inv, Enabled, Own, PcOk, Weight, Carried;
    var s' := Own(s, t);
    OwnPc(s, t);
    Sizes(s, t);
    forall u: nat | u < |s'.pcs|
      ensures PcOk(s', u)
    {
      if u != t {
        Has(s, u);
        forall b: nat | b < |s.bufs| && Weight(s.pcs[u], b) > 0
          ensures s'.bufs[b].blockno == s.bufs[b].blockno
        {
          if s.bufs[b].refcnt == 0 {
            NobodyHas(s, b, u);
          } else {
            KeysKept(s, t, b);
          }
        }
        OtherPc(s, s', u);
      }
    }
  }

  lemma LockingPlaced(s: State, t: nat)
    requires Inv(s) && Enabled(s, t) && (Acquires(s.pcs[t]) || Releases(s.pcs[t])) && Sized(Own(s, t))
    ensures Placed(Own(s, t))
  {
    hide Inv, Placed, Accounted, Probe, Home, FirstIn, LastIn, Carried, Locks, PcOk, Weight;
    Has(s, t);
    var s' := Own(s, t);
    assert s'.rings == s.rings && s'.bufs == s.bufs && s'.transit == s.transit;
    PlacedSame(s, s');
  }

  lemma PlacedSame(s: State, s': State)
    requires Sized(s) && Sized(s') && Placed(s) && s'.rings == s.rings && s'.bufs == s.bufs && s'.transit == s.transit
    ensures Placed(s')
  {
  }

  lemma LookPlaced(s: State, t: nat)
    requires Inv(s) && Enabled(s, t) && s.pcs[t].GetLook? && Sized(Own(s, t))
    ensures Placed(Own(s, t))
  {
    hide Inv, Accounted, Home, FirstIn, LastIn, Carried, Locks, PcOk, Free, Matching, Inc;
    Has(s, t);
    var pc := s.pcs[t];
    var home := Home(pc.blockno, |s.rings|);
    var ring := s.rings[home];
    var i, j := FirstIn(ring, Matching(s.bufs, pc.dev, pc.blockno)), LastIn(ring, Free(s.bufs));
    if i < |ring| {
      IsMatching(s.bufs, pc.dev, pc.blockno, ring[i]);
      Found(s, home, i);
    } else if j >= 0 {
      Found(s, home, j);
    }
  }

  lemma StealPlaced(s: State, t: nat)
    requires Inv(s) && Enabled(s, t) && s.pcs[t].StealLook? && Sized(Own(s, t))
    ensures Placed(Own(s, t))
  {
  }

  lemma LinkPlaced(s: State, t: nat)
    requires Inv(s) && Enabled(s, t) && s.pcs[t].MoveLink? && Sized(Own(s, t))
    ensures Placed(Own(s, t))
  {
    hide Inv, Accounted, Home, Probe, FirstIn, LastIn, Carried, Locks;
    Has(s, t);
  }

  lemma DoPlaced(s: State, t: nat)
    requires Inv(s) && Enabled(s, t) && s.pcs[t].OpDo? && Sized(Own(s, t))
    ensures Placed(Own(s, t))
  {
    hide Inv, Accounted, Home, Probe, FirstIn, LastIn, Carried, Locks, Move, PosOf, Inc, Dec;
    Has(s, t);
    OnItsRing(s, t);
    var k := s.pcs[t].k;
    MoveMembers(s.rings, |s.bufs|, s.transit, k, PosOf(s.rings[k], s.pcs[t].b), k);
  }

  lemma StepInv(s: State, t: nat)
    requires Inv(s) && Enabled(s, t) && Room(s, t)
    ensures Inv(Own(s, t))
  {
    hide Inv, Enabled, Own, LocksOk, Partition, TransitOk, PcsOk, Placed, Accounted, Room;
    Kinds(s, t);
    var pc := s.pcs[t];
    NextPartition(s, t);
    if Acquires(pc) || Releases(pc) {
      if Acquires(pc) { AcquireLocks(s, t); } else { ReleaseLocks(s, t); }
      LockingAccounted(s, t);
      LockingTransit(s, t);
      LockingPlaced(s, t);
    } else if Searches(pc) {
      OtherLocks(s, t);
      if pc.GetLook? {
        LookAccounted(s, t);
        LookTransit(s, t);
        LookPlaced(s, t);
      } else {
        StealAccounted(s, t);
        StealTransit(s, t);
        StealPlaced(s, t);
      }
    } else {
      OtherLocks(s, t);
      ChangeAccounted(s, t);
      ChangeTransit(s, t);
      if pc.OpDo? { DoPlaced(s, t); } else { LinkPlaced(s, t); }
    }
    NextPcs(s, t);
    NextRefs(s, t);
    Together(Own(s, t));
  }

  lemma Kinds(s: State, t: nat)
    requires Enabled(s, t)
    ensures t < |s.pcs| && (Acquires(s.pcs[t]) || Releases(s.pcs[t]) || Searches(s.pcs[t]) || Changes(s.pcs[t]))
  {
  }

  lemma Together(s: State)
    requires Sized(s) && LocksOk(s) && Partition(s.rings, |s.bufs|, s.transit) && TransitOk(s)
    requires PcsOk(s) && Placed(s) && Accounted(s) && forall b | b in s.refs :: b < |s.bufs|
    ensures Inv(s)
  {
  }

  lemma NextRefs(s: State, t: nat)
    requires Inv(s) && Enabled(s, t)
    ensures forall b | b in Own(s, t).refs :: b < |Own(s, t).bufs|
  {
    Sizes(s, t);
    assert PcOk(s, t);
    hide LocksOk, Partition, TransitOk, Placed, Accounted, Probe, Home;
    hide FirstIn, LastIn, Free, Matching, PosOf, Move, Push, Unlink;
  }

  lemma CallInv(s: State, t: nat, a: Action)
    requires Inv(s) && Allowed(s, t, a) && !a.Step?
    ensures Inv(Next(s, t, a))
  {
    hide Inv, LocksOk, Partition, TransitOk, Placed, Accounted, Probe, Home, Carried;
    Has(s, t);
    var s' := Next(s, t, a);
    LocksChange(s, s', t, s'.pcs[t]);
    AccountedChange(s, s', t);
    SameTransit(s, s', t);
    PlacedSame(s, s');
    CallPcs(s, t, a);
    RefsOk(s);
    Together(s');
  }

  lemma RefsOk(s: State)
    requires Inv(s)
    ensures forall b | b in s.refs :: b < |s.bufs|
  {
  }

  lemma CallPcs(s: State, t: nat, a: Action)
    requires Inv(s) && Allowed(s, t, a) && !a.Step?
    ensures Sized(Next(s, t, a)) && PcsOk(Next(s, t, a))
  {
    hide LocksOk, Partition, TransitOk, Placed, Accounted, Probe, Home;
    var s' := Next(s, t, a);
    forall u: nat | u < |s'.pcs|
      ensures PcOk(s', u)
    {
      assert PcOk(s, u);
    }
  }

  // A step that counts past 2^32 - 1 leaves a referenced buffer with count 0.
  lemma Overflows(s: State, t: nat)
    requires Inv(s) && Enabled(s, t) && !Room(s, t)
    ensures !Inv(Own(s, t))
  {
    hide Inv, Probe, Home, FirstIn, LastIn, Carried, Locks, Free, Matching, Move, PosOf;
    Has(s, t);
    var s', pc := Own(s, t), s.pcs[t];
    var b := if pc.OpDo? then pc.b
             else var ring := s.rings[Home(pc.blockno, |s.rings|)];
                  ring[FirstIn(ring, Matching(s.bufs, pc.dev, pc.blockno))];
    assert s'.bufs[b].refcnt == 0 && Weight(s'.pcs[t], b) > 0;
    CarriedAtLeast(s'.pcs, t, b);
    if Inv(s') {
      Has(s', t);
    }
  }

  // Exactly the steps with room for the count keep it.
  lemma StepInvIff(s: State, t: nat)
    requires Inv(s) && Enabled(s, t)
    ensures Inv(Own(s, t)) <==> Room(s, t)
  {
    hide Inv, Enabled, Own, Room;
    if Room(s, t) {
      StepInv(s, t);
    } else {
      Overflows(s, t);
    }
  }

  // Every lock operation and every critical section of every thread keeps it.
  lemma NextInv(s: State, t: nat, a: Action)
    requires Inv(s) && Allowed(s, t, a)
    ensures Inv(Next(s, t, a))
  {
    hide Inv;
    if a.Step? {
      StepInv(s, t);
    } else {
      CallInv(s, t, a);
    }
  }

  /* Runs. */

  // After binit, with every thread idle.
  function Init(nbuf: nat, n: nat, threads: nat): State
    requires n > 0
  {
    State(InitRings(nbuf, n), seq(nbuf, _ => ZERO_BUF), seq(n, _ => Nobody), Idles(threads), multiset{}, {})
  }

  function Idles(threads: nat): seq<Pc> {
    seq(threads, _ => Idle)
  }

  lemma {:induction false} IdleCarriesNothing(threads: nat, b: nat)
    ensures Carried(Idles(threads), b) == 0
  {
    if threads > 0 {
      IdleCarriesNothing(threads - 1, b);
      assert Idles(threads)[1..] == Idles(threads - 1);
    }
  }

  lemma InitInv(nbuf: nat, n: nat, threads: nat)
    requires 0 < n < 0x8000_0000
    ensures Inv(Init(nbuf, n, threads))
  {
    var s := Init(nbuf, n, threads);
    BcacheRuns.InitRingsOk(nbuf, nbuf, n);
    assert From(nbuf, nbuf) == {};
    InitAccounted(nbuf, n, threads);
    hide Partition, InitRings, Carried, Home, Accounted;
    assert Sized(s) && LocksOk(s) && TransitOk(s) && PcsOk(s) && Placed(s);
  }

  lemma InitAccounted(nbuf: nat, n: nat, threads: nat)
    requires 0 < n
    ensures Accounted(Init(nbuf, n, threads))
  {
    hide Carried, InitRings;
    forall b: nat | b < nbuf
      ensures Carried(Idles(threads), b) == 0
    {
      IdleCarriesNothing(threads, b);
    }
  }

  ghost predicate Follows(r: State, s: State) {
    exists t, a :: Allowed(r, t, a) && s == Next(r, t, a)
  }

  // s is reached from the initial state in so many steps.
  ghost predicate Reached(s: State, nbuf: nat, n: nat, threads: nat, steps: nat)
    requires 0 < n
    decreases steps
  {
    if steps == 0 then s == Init(nbuf, n, threads)
    else exists r :: Reached(r, nbuf, n, threads, steps - 1) && Follows(r, s)
  }

  lemma FollowsInv(r: State, s: State)
    requires Inv(r) && Follows(r, s)
    ensures Inv(s)
  {
    hide Inv, Allowed, Next;
    var t, a :| Allowed(r, t, a) && s == Next(r, t, a);
    NextInv(r, t, a);
  }

  lemma {:induction false} RunInv(s: State, nbuf: nat, n: nat, threads: nat, steps: nat)
    requires 0 < n < 0x8000_0000 && Reached(s, nbuf, n, threads, steps)
    ensures Inv(s)
    decreases steps
  {
    hide Follows, Inv, Init;
    if steps == 0 {
      InitInv(nbuf, n, threads);
    } else {
      var r :| Reached(r, nbuf, n, threads, steps - 1) && Follows(r, s);
      RunInv(r, nbuf, n, threads, steps - 1);
      FollowsInv(r, s);
    }
  }

  // In every state of every run each buffer is on exactly one ring, or in transit
  // in the hands of one thief.
  lemma RunPartition(s: State, nbuf: nat, n: nat, threads: nat, steps: nat)
    requires 0 < n < 0x8000_0000 && Reached(s, nbuf, n, threads, steps)
    ensures Partition(s.rings, |s.bufs|, s.transit) && TransitOk(s)
  {
    RunInv(s, nbuf, n, threads, steps);
    hide Partition, TransitOk, LocksOk, PcsOk;
  }

  // A thread changes only rings whose locks it holds.
  lemma RingsUnderLock(s: State, t: nat, k: nat)
    requires Inv(s) && Enabled(s, t) && k < |s.rings|
    ensures |Own(s, t).rings| == |s.rings| && (Own(s, t).rings[k] != s.rings[k] ==> s.lock[k] == By(t))
  {
    Sizes(s, t);
    Changed(s, t, k);
    assert k in Locks(s.pcs[t], |s.rings|) ==> s.lock[k] == By(t);
  }

  lemma Changed(s: State, t: nat, k: nat)
    requires Sized(s) && Enabled(s, t) && k < |s.rings| == |Own(s, t).rings|
    ensures Own(s, t).rings[k] != s.rings[k] ==> k in Locks(s.pcs[t], |s.rings|)
  {
  }

  // A buffer somebody has a reference to keeps its key.
  lemma KeyStable(s: State, t: nat, b: nat)
    requires Inv(s) && Enabled(s, t) && b < |s.bufs| && s.refs[b] > 0
    ensures |Own(s, t).bufs| == |s.bufs|
    ensures Own(s, t).bufs[b].dev == s.bufs[b].dev && Own(s, t).bufs[b].blockno == s.bufs[b].blockno
  {
    assert s.bufs[b].refcnt == References(s, b);
    KeysKept(s, t, b);
  }
}
