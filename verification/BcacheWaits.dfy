/** Who waits for whom among the threads of the buffer cache, and when they wait
    for ever. */
module BcacheWaits {
  import opened Rows
  import opened Residues
  import opened BufRings
  import opened Bcache
  import opened BcacheProbe
  import opened BcacheProtocol

  // The bucket whose lock a thread wants next.
  function Wants(pc: Pc, n: nat): nat
    requires n > 0 && Acquires(pc)
  {
    match pc
    case GetWait(_, blockno) => Home(blockno, n)
    case StealWait(_, blockno, i) => Probe(blockno, i, n)
    case MoveWait(_, blockno, _) => Home(blockno, n)
    case OpWait(_, _, k) => k
  }

  predicate Unfinished(s: State, t: nat) {
    t < |s.pcs| && !s.pcs[t].Idle? && !s.pcs[t].Halted?
  }

  // t wants a lock that is taken ...
  ghost predicate Blocked(s: State, t: nat) {
    && Sized(s) && t < |s.pcs| && Acquires(s.pcs[t])
    && Wants(s.pcs[t], |s.rings|) < |s.lock| && s.lock[Wants(s.pcs[t], |s.rings|)].By?
  }

  // ... by this thread, possibly itself.
  ghost function Blocker(s: State, t: nat): nat
    requires Blocked(s, t)
  {
    s.lock[Wants(s.pcs[t], |s.rings|)].t
  }

  // From t on, so many times to the thread that has the wanted lock.
  ghost function Hop(s: State, t: nat, k: nat): nat {
    if k == 0 then t
    else
      var u := Hop(s, t, k - 1);
      if Blocked(s, u) then Blocker(s, u) else u
  }

  // Each of these threads waits for the next, and they come round.
  ghost predicate RunsInto(s: State, t: nat, i: nat, j: nat) {
    && i < j && Hop(s, t, i) == Hop(s, t, j)
    && forall m: nat | m < j :: Blocked(s, Hop(s, t, m))
  }

  ghost predicate Stuck(s: State, t: nat) {
    exists i: nat, j: nat :: RunsInto(s, t, i, j)
  }

  // t waits, directly or not, for a thread that can step, or can step itself.
  ghost predicate LeadsOn(s: State, t: nat) {
    exists k: nat :: Enabled(s, Hop(s, t, k))
  }

  // t is a thief that waits with a buffer in hand.
  predicate Waits(s: State, t: nat) { t < |s.pcs| && s.pcs[t].MoveWait? }

  // t's own bucket is the one it holds.
  predicate WaitsForItself(s: State, t: nat) {
    && 0 < |s.rings| && Waits(s, t)
    && Probe(s.pcs[t].blockno, s.pcs[t].i, |s.rings|) == Home(s.pcs[t].blockno, |s.rings|)
  }

  /* Blocked or able to step. */

  lemma BlockedOrEnabled(s: State, t: nat)
    requires Inv(s) && Unfinished(s, t)
    ensures Enabled(s, t) <==> !Blocked(s, t)
  {
    hide LocksOk, TransitOk, Placed, Accounted, Partition, Home, Probe, FirstIn, LastIn, Free, Matching;
    if !Blocked(s, t) {
      assert PcOk(s, t);
      OnlyLocksWait(s, t);
    }
  }

  // Who blocks a thread is inside an operation; and if blocked itself, a thief.
  lemma BlockerIs(s: State, t: nat)
    requires Inv(s) && Blocked(s, t)
    ensures Unfinished(s, Blocker(s, t))
    ensures Blocked(s, Blocker(s, t)) ==>
              s.pcs[Blocker(s, t)].MoveWait? && Wants(s.pcs[t], |s.rings|) in Locks(s.pcs[Blocker(s, t)], |s.rings|)
  {
  }

  lemma {:induction false} HopsUnfinished(s: State, t: nat, k: nat)
    requires Inv(s) && Unfinished(s, t)
    ensures Unfinished(s, Hop(s, t, k))
  {
    hide Inv, Blocked;
    if k > 0 {
      HopsUnfinished(s, t, k - 1);
      if Blocked(s, Hop(s, t, k - 1)) {
        BlockerIs(s, Hop(s, t, k - 1));
      }
    }
  }

  // More hops than threads meet a thread twice.
  lemma {:induction false} Pigeonhole(xs: seq<nat>, m: nat)
    requires |xs| > m && forall x | x in xs :: x < m
    ensures !Distinct(xs)
  {
    assert xs[0] in xs;
    if Distinct(xs) {
      if m - 1 in xs {
        var i := PosOf(xs, m - 1);
        WithoutMembers(xs, i);
        Pigeonhole(Without(xs, i), m - 1);
      } else {
        assert forall x | x in xs[1..] :: x in xs && x != m - 1;
        Pigeonhole(xs[1..], m - 1);
      }
    }
  }

  // A thread in an operation that no chain of waiting threads leads to one that
  // can step is stuck ...
  lemma NobodyEnabled(s: State, t: nat)
    requires Inv(s) && Unfinished(s, t) && forall k: nat | k <= |s.pcs| :: !Enabled(s, Hop(s, t, k))
    ensures Stuck(s, t)
  {
    hide Inv, Hop, Enabled, Blocked;
    var xs := seq(|s.pcs| + 1, k requires 0 <= k => Hop(s, t, k));
    forall k: nat | k <= |s.pcs|
      ensures xs[k] < |s.pcs| && Blocked(s, Hop(s, t, k))
    {
      HopsUnfinished(s, t, k);
      BlockedOrEnabled(s, Hop(s, t, k));
    }
    Pigeonhole(xs, |s.pcs|);
    var i, j :| 0 <= i < j < |xs| && xs[i] == xs[j];
    assert RunsInto(s, t, i, j);
  }

  // ... and a stuck one meets no thread that can.
  lemma {:induction false} RoundAndRound(s: State, t: nat, i: nat, j: nat, k: nat) returns (m: nat)
    requires RunsInto(s, t, i, j)
    ensures m < j && Hop(s, t, k) == Hop(s, t, m)
  {
    hide Blocked;
    if k < j {
      m := k;
    } else {
      m := RoundAndRound(s, t, i, j, k - 1);
      assert Blocked(s, Hop(s, t, m));
      m := if m + 1 < j then m + 1 else i;
    }
  }

  // A thread inside an operation is stuck exactly if no thread that it waits for,
  // directly or not, can step.
  lemma StuckIff(s: State, t: nat)
    requires Inv(s) && Unfinished(s, t)
    ensures Stuck(s, t) <==> !LeadsOn(s, t)
  {
    hide Inv, Hop, Enabled, Blocked;
    if i: nat, j: nat :| RunsInto(s, t, i, j) {
      forall k: nat
        ensures !Enabled(s, Hop(s, t, k))
      {
        var m := RoundAndRound(s, t, i, j, k);
        HopsUnfinished(s, t, k);
        BlockedOrEnabled(s, Hop(s, t, k));
      }
    } else if !LeadsOn(s, t) {
      NobodyEnabled(s, t);
    }
  }

  // No operation under way can go on, exactly if all are stuck.
  lemma DeadlockIff(s: State)
    requires Inv(s)
    ensures (forall t: nat | Unfinished(s, t) :: !Enabled(s, t)) <==> (forall t: nat | Unfinished(s, t) :: Stuck(s, t))
  {
    hide Inv, Stuck, Enabled, Unfinished;
    forall t: nat | Unfinished(s, t)
      ensures Stuck(s, t) <==> !LeadsOn(s, t)
      ensures Enabled(s, t) ==> LeadsOn(s, t)
      ensures LeadsOn(s, t) ==> exists u: nat :: Unfinished(s, u) && Enabled(s, u)
    {
      StuckIff(s, t);
      assert Hop(s, t, 0) == t;
      if k: nat :| Enabled(s, Hop(s, t, k)) {
        HopsUnfinished(s, t, k);
      }
    }
  }

  // The threads that a chain comes round to are thieves with a buffer in hand,
  // each waiting for its own bucket, whose lock the next holds as its probe.
  lemma CycleOfThieves(s: State, t: nat, i: nat, j: nat, m: nat)
    requires Inv(s) && RunsInto(s, t, i, j) && i <= m < j
    ensures var u, v := Hop(s, t, m), Hop(s, t, m + 1);
            && Waits(s, u) && Waits(s, v) && 0 < |s.rings|
            && Home(s.pcs[u].blockno, |s.rings|) == Probe(s.pcs[v].blockno, s.pcs[v].i, |s.rings|)
            && (u == v ==> WaitsForItself(s, u))
  {
    hide Inv, Home, Probe;
    ThiefAt(s, t, i, j, m);
    ThiefAt(s, t, i, j, if m + 1 < j then m + 1 else i);
    BlockerIs(s, Hop(s, t, m));
  }

  lemma ThiefAt(s: State, t: nat, i: nat, j: nat, m: nat)
    requires Inv(s) && RunsInto(s, t, i, j) && i <= m < j
    ensures Blocked(s, Hop(s, t, m)) && s.pcs[Hop(s, t, m)].MoveWait?
  {
    hide Inv, Blocked;
    BlockerIs(s, Hop(s, t, if m > i then m - 1 else j - 1));
  }

  /* There is no way out. */

  lemma {:induction false} HopsStay(s: State, s': State, t: nat, k: nat)
    requires forall m: nat | m < k :: Blocked(s, Hop(s, t, m)) && Blocked(s', Hop(s, t, m))
                                      && Blocker(s', Hop(s, t, m)) == Blocker(s, Hop(s, t, m))
    ensures Hop(s', t, k) == Hop(s, t, k)
  {
    hide Blocked, Blocker;
    if k > 0 {
      HopsStay(s, s', t, k - 1);
    }
  }

  // A thread that waits for a blocked thread still does after any action.
  lemma StillBlocked(s: State, u: nat, w: nat, a: Action)
    requires Inv(s) && Blocked(s, u) && Blocked(s, Blocker(s, u)) && Allowed(s, w, a)
    ensures w != u && Blocked(Next(s, w, a), u) && Blocker(Next(s, w, a), u) == Blocker(s, u)
    ensures Next(s, w, a).pcs[u] == s.pcs[u]
  {
    hide Inv, Own, Home, Probe, FirstIn, LastIn, Free, Matching, Room;
    BlockerIs(s, u);
    if a.Step? {
      Sizes(s, w);
      LocksOfOthers(s, w, Wants(s.pcs[u], |s.rings|));
    }
  }

  // A step changes no lock that another thread holds.
  lemma LocksOfOthers(s: State, w: nat, k: nat)
    requires Inv(s) && Enabled(s, w) && k < |s.lock| && s.lock[k].By? && s.lock[k].t != w
    ensures |Own(s, w).lock| == |s.lock| && Own(s, w).lock[k] == s.lock[k]
  {
    hide LocksOk, TransitOk, Placed, Accounted, Partition, Home, Probe;
    hide FirstIn, LastIn, Free, Matching, PosOf, Carried;
    Has(s, w);
    HeldBy(s, w, k);
  }

  lemma HeldBy(s: State, w: nat, k: nat)
    requires Sized(s) && LocksOk(s) && w < |s.pcs| && k < |s.lock| && s.lock[k] != By(w)
    ensures k !in Locks(s.pcs[w], |s.rings|)
  {
  }

  // Once stuck, a thread never steps again and stays stuck, whatever others do.
  lemma StuckForever(s: State, t: nat, w: nat, a: Action)
    requires Inv(s) && Stuck(s, t) && Allowed(s, w, a)
    ensures w != t && Stuck(Next(s, w, a), t)
  {
    hide Inv, Blocked, Blocker, Allowed, Next;
    var s' := Next(s, w, a);
    var i: nat, j: nat :| RunsInto(s, t, i, j);
    forall m: nat | m < j
      ensures w != Hop(s, t, m) && Blocked(s', Hop(s, t, m)) && Blocker(s', Hop(s, t, m)) == Blocker(s, Hop(s, t, m))
    {
      assert Hop(s, t, m + 1) == Blocker(s, Hop(s, t, m));
      assert Blocked(s, Hop(s, t, if m + 1 < j then m + 1 else i));
      StillBlocked(s, Hop(s, t, m), w, a);
    }
    forall m: nat | m <= j
      ensures Hop(s', t, m) == Hop(s, t, m)
    {
      HopsStay(s, s', t, m);
    }
    assert w != Hop(s, t, 0);
    assert RunsInto(s', t, i, j);
  }

  /* When somebody can go on. */

  // With at most one waiting thief, and not waiting for itself, every thread
  // inside an operation leads to one that can step.
  lemma SomeoneCanStep(s: State, t: nat) returns (u: nat)
    requires Inv(s) && Unfinished(s, t)
    requires forall v: nat, w: nat | Waits(s, v) && Waits(s, w) :: v == w
    requires forall v: nat :: !WaitsForItself(s, v)
    ensures Unfinished(s, u) && Enabled(s, u)
  {
    hide Inv, Hop, Enabled, Blocked, Waits, WaitsForItself;
    if i: nat, j: nat :| RunsInto(s, t, i, j) {
      CycleOfThieves(s, t, i, j, i);
    }
    StuckIff(s, t);
    var k: nat :| Enabled(s, Hop(s, t, k));
    HopsUnfinished(s, t, k);
    u := Hop(s, t, k);
  }

  // And no operation goes on for ever: a bound on the steps a thread has left.
  function Work(pc: Pc, n: nat): int {
    match pc
    case GetWait(_, _) => 3 * n + 6
    case GetLook(_, _) => 3 * n + 5
    case GetMiss(_, _) => 3 * n + 4
    case StealWait(_, _, i) => 3 * (n - i) + 6
    case StealLook(_, _, i) => 3 * (n - i) + 5
    case StealMiss(_, _, i) => 3 * (n - i) + 4
    case MoveWait(_, _, _) => 5
    case MoveLink(_, _, _) => 4
    case MoveHome(_, _, _) => 3
    case GetDone(_, _) => 1
    case OpWait(_, _, _) => 3
    case OpDo(_, _, _) => 2
    case OpDone(_, _, _) => 1
    case _ => 0
  }

  lemma WorkDecreases(s: State, t: nat)
    requires Inv(s) && Enabled(s, t)
    ensures t < |s.pcs| == |Own(s, t).pcs|
    ensures 0 <= Work(Own(s, t).pcs[t], |s.rings|) < Work(s.pcs[t], |s.rings|) <= 3 * |s.rings| + 6
    ensures forall u: nat | u < |s.pcs| && u != t :: Own(s, t).pcs[u] == s.pcs[u]
  {
    hide Inv, LocksOk, TransitOk, Placed, Accounted, Partition, PcsOk, Home, Probe;
    hide FirstIn, LastIn, Free, Matching, PosOf, Carried, Inc, Dec, Unlink, Push, Move;
    Has(s, t);
    Sizes(s, t);
  }

  /* Waiting for itself. */

  lemma SelfWaitStuck(s: State, t: nat)
    requires Inv(s) && WaitsForItself(s, t)
    ensures Stuck(s, t)
  {
    hide TransitOk, Placed, Accounted, Partition, PcsOk, Probe, Home;
    var n := |s.rings|;
    assert Probe(s.pcs[t].blockno, s.pcs[t].i, n) in Locks(s.pcs[t], n);
    assert Hop(s, t, 1) == t;
    assert RunsInto(s, t, 0, 1);
  }

  // Some probe of the block comes round to its own bucket.
  ghost predicate ProbesItself(blockno: U32, n: nat)
    requires n > 0
  {
    exists i: nat | 0 < i < n :: Probe(blockno, i, n) == Home(blockno, n)
  }

  // That is so only for the last block numbers below 2^32, as many as 2^32
  // exceeds a multiple of n.
  lemma ProbesItselfIff(blockno: U32, n: nat)
    requires 0 < n <= TWO32
    ensures ProbesItself(blockno, n) <==> TWO32 - blockno <= TWO32 % n
  {
    var h, w := blockno % n, TWO32 - blockno;
    if w <= n {
      HomeNearWrap(blockno, n);
    }
    forall i: nat | 0 < i < n
      ensures Probe(blockno, i, n) == h <==> i == h + w
    {
      ProbeValue(blockno, n, i);
    }
    if w <= TWO32 % n {
      assert Probe(blockno, h + w, n) == Home(blockno, n);
    }
  }

  lemma NoSelfWait(s: State, t: nat)
    requires Inv(s) && Waits(s, t) && !ProbesItself(s.pcs[t].blockno, |s.rings|)
    ensures !WaitsForItself(s, t)
  {
    assert PcOk(s, t);
  }
}
