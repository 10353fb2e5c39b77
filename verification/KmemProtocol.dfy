/** The per-CPU page allocator under concurrency: any number of CPUs run kalloc
    and kfree, and every lock operation, list read and list write is one step. */
module KmemProtocol {
  import opened Residues
  import opened Rows
  import opened Kmem

  // What a CPU does next. FreeLink, FreeStore and FreeUnlock hold the CPU's own
  // lock; AllocLook, AllocTake and AllocUnlock that of its i-th target.
  datatype Pc =
    | Idle
    | FreeWait(pa: nat)              // get the own list's lock
    | FreeLink(pa: nat)              // let the page point to the head of the list
    | FreeStore(pa: nat)             // make the page the head
    | FreeUnlock
    | AllocWait(i: nat)              // get the lock of target i
    | AllocLook(i: nat)              // read the head of its list
    | AllocTake(i: nat, r: nat)      // make the page after r the head
    | AllocUnlock(i: nat, r: nat)    // give the lock up; r is the result unless it is 0

  /** `lock[k]` is Some(c) while CPU c holds the lock of list k; `owned` are the
      pages callers own. `lists` (what the pointers string together) and
      `empties` (the lists each CPU found empty in its current kalloc) are
      auxiliary: no step depends on them. */
  datatype Holder = Nobody | By(c: nat)
  datatype State = State(
    freelist: seq<nat>, next: map<nat, nat>, lock: seq<Holder>, pcs: seq<Pc>, owned: set<nat>,
    lists: FreeLists, empties: seq<set<nat>>)

  ghost predicate Sized(s: State) {
    && 0 < |s.pcs|
    && |s.freelist| == |s.lock| == |s.lists| == |s.empties| == |s.pcs|
  }

  // The list whose lock CPU c holds at pc, if any.
  function Holds(pc: Pc, c: nat, n: nat): (k: int)
    requires 0 < n && c < n
    ensures -1 <= k < n
  {
    match pc
    case FreeLink(_) => c
    case FreeStore(_) => c
    case FreeUnlock => c
    case AllocLook(i) => Target(c, i, n)
    case AllocTake(i, _) => Target(c, i, n)
    case AllocUnlock(i, _) => Target(c, i, n)
    case _ => -1
  }

  // The list whose lock CPU c waits for at pc, if any.
  function WaitsFor(pc: Pc, c: nat, n: nat): (k: int)
    requires 0 < n && c < n
    ensures -1 <= k < n
  {
    match pc
    case FreeWait(_) => c
    case AllocWait(i) => Target(c, i, n)
    case _ => -1
  }

  ghost predicate Enabled(s: State, c: nat) {
    && Sized(s) && c < |s.pcs| && s.pcs[c] != Idle
    && (var k := WaitsFor(s.pcs[c], c, |s.pcs|); k >= 0 ==> s.lock[k] == Nobody)
    && (s.pcs[c].AllocTake? ==> s.pcs[c].r in s.next)
  }

  // The next step of CPU c inside an operation.
  ghost function Own(s: State, c: nat): State
    requires Enabled(s, c)
  {
    var n := |s.pcs|;
    match s.pcs[c]
    case FreeWait(pa) => s.(lock := s.lock[c := By(c)], pcs := s.pcs[c := FreeLink(pa)])
    case FreeLink(pa) => s.(next := s.next[pa := s.freelist[c]], pcs := s.pcs[c := FreeStore(pa)])
    case FreeStore(pa) =>
      s.(freelist := s.freelist[c := pa], lists := Pushed(s.lists, c, pa), pcs := s.pcs[c := FreeUnlock])
    case FreeUnlock => s.(lock := s.lock[c := Nobody], pcs := s.pcs[c := Idle])
    case AllocWait(i) =>
      s.(lock := s.lock[Target(c, i, n) := By(c)], pcs := s.pcs[c := AllocLook(i)])
    case AllocLook(i) =>
      var k := Target(c, i, n);
      var r := s.freelist[k];
      if r != 0 then s.(pcs := s.pcs[c := AllocTake(i, r)])
      else s.(pcs := s.pcs[c := AllocUnlock(i, 0)],
              empties := if s.lists[k] == [] then s.empties[c := s.empties[c] + {k}] else s.empties)
    case AllocTake(i, r) =>
      var k := Target(c, i, n);
      s.(freelist := s.freelist[k := s.next[r]], pcs := s.pcs[c := AllocUnlock(i, r)],
         lists := if s.lists[k] != [] then Popped(s.lists, k) else s.lists)
    case AllocUnlock(i, r) =>
      var s' := s.(lock := s.lock[Target(c, i, n) := Nobody]);
      if r != 0 then s'.(pcs := s.pcs[c := Idle], owned := s.owned + {r})
      else s'.(pcs := s.pcs[c := if i + 1 < n then AllocWait(i + 1) else Idle])
    case Idle => s
  }

  datatype Action = CallAlloc | CallFree(pa: nat) | Step

  // CPU c starts an operation or goes on with one; callers free only pages they own.
  ghost predicate Allowed(s: State, c: nat, a: Action) {
    match a
    case CallAlloc => Sized(s) && c < |s.pcs| && s.pcs[c] == Idle
    case CallFree(pa) => Sized(s) && c < |s.pcs| && s.pcs[c] == Idle && pa in s.owned
    case Step => Enabled(s, c)
  }

  ghost function Next(s: State, c: nat, a: Action): State
    requires Allowed(s, c, a)
  {
    match a
    case CallAlloc => s.(pcs := s.pcs[c := AllocWait(0)], empties := s.empties[c := {}])
    case CallFree(pa) => s.(pcs := s.pcs[c := FreeWait(pa)], owned := s.owned - {pa})
    case Step => Own(s, c)
  }

  /* The invariant. */

  ghost predicate LocksOk(s: State)
    requires Sized(s)
  {
    && (forall c: nat | c < |s.pcs| :: var k := Holds(s.pcs[c], c, |s.pcs|); k >= 0 ==> s.lock[k] == By(c))
    && (forall k: nat | k < |s.lock| && s.lock[k].By? ::
          s.lock[k].c < |s.pcs| && Holds(s.pcs[s.lock[k].c], s.lock[k].c, |s.pcs|) == k)
  }

  ghost predicate ChainsOk(s: State)
    requires Sized(s)
  {
    forall k: nat | k < |s.lists| :: Chain(s.next, s.freelist[k], s.lists[k])
  }

  ghost predicate PcOk(s: State, c: nat)
    requires Sized(s) && c < |s.pcs|
  {
    var n := |s.pcs|;
    match s.pcs[c]
    case FreeWait(pa) => pa != 0
    case FreeLink(pa) => pa != 0
    case FreeStore(pa) => pa != 0 && pa in s.next && s.next[pa] == s.freelist[c]
    case AllocWait(i) => i < n && s.empties[c] == Looked(c, i, n)
    case AllocLook(i) => i < n && s.empties[c] == Looked(c, i, n)
    case AllocTake(i, r) => i < n && r != 0 && s.freelist[Target(c, i, n)] == r
    case AllocUnlock(i, r) => i < n && (r == 0 ==> s.empties[c] == Looked(c, i + 1, n))
    case _ => true
  }

  // The first i targets of CPU c.
  function Looked(c: nat, i: nat, n: nat): set<nat>
    requires n > 0
  {
    if i == 0 then {} else Looked(c, i - 1, n) + {Target(c, i - 1, n)}
  }

  // Where a page is: on the free list of a CPU, with a caller, or inside one
  // kalloc or kfree.
  datatype Place = OnList(k: nat) | Owned | InFlight(c: nat)

  function Carried(pc: Pc): nat {
    match pc
    case FreeWait(pa) => pa
    case FreeLink(pa) => pa
    case FreeStore(pa) => pa
    case AllocUnlock(_, r) => r
    case _ => 0
  }

  ghost predicate IsAt(s: State, p: nat, pl: Place) {
    match pl
    case OnList(k) => k < |s.lists| && p in s.lists[k]
    case Owned => p in s.owned
    case InFlight(c) => c < |s.pcs| && Carried(s.pcs[c]) == p
  }

  // Every page is in exactly one place, and only pages are anywhere; the free
  // lists are acyclic.
  ghost predicate Conserved(s: State, pages: set<nat>) {
    && (forall p | p in pages :: exists pl :: IsAt(s, p, pl))
    && (forall p, pl | p != 0 && IsAt(s, p, pl) :: p in pages)
    && (forall p, pl, pl' | p != 0 && IsAt(s, p, pl) && IsAt(s, p, pl') :: pl == pl')
    && (forall k | 0 <= k < |s.lists| :: Distinct(s.lists[k]))
    && 0 !in pages && 0 !in s.owned
  }

  ghost predicate PcsOk(s: State)
    requires Sized(s)
  {
    forall c: nat | c < |s.pcs| :: PcOk(s, c)
  }

  ghost predicate Inv(s: State, pages: set<nat>) {
    && Sized(s) && LocksOk(s) && ChainsOk(s) && PcsOk(s) && Conserved(s, pages)
  }

  /* Every step keeps it. */

  // From s to s', page p goes to `to`; every other page stays.
  ghost predicate Carries(s: State, s': State, p: nat, to: Place) {
    forall q, pl | q != 0 :: IsAt(s', q, pl) <==> if q == p then pl == to else IsAt(s, q, pl)
  }

  ghost predicate SamePlaces(s: State, s': State) {
    forall q, pl | q != 0 :: IsAt(s', q, pl) <==> IsAt(s, q, pl)
  }

  ghost predicate Acyclic(s: State) {
    forall k | 0 <= k < |s.lists| :: Distinct(s.lists[k])
  }

  lemma CarriesConserved(s: State, s': State, pages: set<nat>, p: nat, to: Place)
    requires Conserved(s, pages) && p in pages && Carries(s, s', p, to)
    requires Acyclic(s') && 0 !in s'.owned
    ensures Conserved(s', pages)
  {
    hide IsAt;
    forall q | q in pages
      ensures exists pl :: IsAt(s', q, pl)
    {
      if q == p {
        assert IsAt(s', q, to);
      } else {
        var pl :| IsAt(s, q, pl);
        assert IsAt(s', q, pl);
      }
    }
  }

  lemma SameConserved(s: State, s': State, pages: set<nat>)
    requires Conserved(s, pages) && SamePlaces(s, s') && Acyclic(s') && 0 !in s'.owned
    ensures Conserved(s', pages)
  {
  }

  lemma OnlyAt(s: State, pages: set<nat>, p: nat, pl: Place)
    requires Conserved(s, pages) && p != 0 && IsAt(s, p, pl)
    ensures p in pages && forall pl' :: IsAt(s, p, pl') <==> pl' == pl
  {
  }

  lemma CallConserved(s: State, pages: set<nat>, c: nat, a: Action)
    requires Inv(s, pages) && Allowed(s, c, a) && !a.Step?
    ensures Conserved(Next(s, c, a), pages)
  {
    var s' := Next(s, c, a);
    if a.CallFree? {
      OnlyAt(s, pages, a.pa, Owned);
      hide Conserved, LocksOk, ChainsOk, PcsOk;
      forall q, pl | q != 0
        ensures IsAt(s', q, pl) <==> if q == a.pa then pl == InFlight(c) else IsAt(s, q, pl)
      {
        assert IsAt(s, a.pa, pl) <==> pl == Owned;
      }
      CarriesConserved(s, s', pages, a.pa, InFlight(c));
    } else {
      SameConserved(s, s', pages);
    }
  }

  lemma StepConserved(s: State, pages: set<nat>, c: nat)
    requires Inv(s, pages) && Enabled(s, c)
    ensures Conserved(Own(s, c), pages)
  {
    hide Inv, Own, Conserved;
    var pc := s.pcs[c];
    if pc.FreeStore? {
      StoreConserved(s, pages, c, pc.pa);
    } else if pc.AllocTake? {
      TakeConserved(s, pages, c, pc.i, pc.r);
    } else if pc.AllocUnlock? {
      UnlockConserved(s, pages, c, pc.i, pc.r);
    } else {
      OthersConserved(s, pages, c);
    }
  }

  lemma OthersConserved(s: State, pages: set<nat>, c: nat)
    requires Inv(s, pages) && Enabled(s, c)
    requires !s.pcs[c].FreeStore? && !s.pcs[c].AllocTake? && !s.pcs[c].AllocUnlock?
    ensures Conserved(Own(s, c), pages)
  {
    hide LocksOk, ChainsOk, PcsOk, Target;
    SameConserved(s, Own(s, c), pages);
  }

  lemma StoreConserved(s: State, pages: set<nat>, c: nat, pa: nat)
    requires Inv(s, pages) && Enabled(s, c) && s.pcs[c] == FreeStore(pa)
    ensures Conserved(Own(s, c), pages)
  {
    var s' := Own(s, c);
    assert PcOk(s, c);
    OnlyAt(s, pages, pa, InFlight(c));
    assert !IsAt(s, pa, OnList(c));
    assert forall q :: q in s'.lists[c] <==> q == pa || q in s.lists[c];
    hide Conserved, LocksOk, ChainsOk, PcsOk;
    forall q, pl | q != 0
      ensures IsAt(s', q, pl) <==> if q == pa then pl == OnList(c) else IsAt(s, q, pl)
    {
      assert IsAt(s, pa, pl) <==> pl == InFlight(c);
    }
    CarriesConserved(s, s', pages, pa, OnList(c));
  }

  lemma TakeConserved(s: State, pages: set<nat>, c: nat, i: nat, r: nat)
    requires Inv(s, pages) && Enabled(s, c) && s.pcs[c] == AllocTake(i, r)
    ensures Conserved(Own(s, c), pages)
  {
    var s', k := Own(s, c), Target(c, i, |s.pcs|);
    assert PcOk(s, c);
    ChainPop(s.next, s.freelist[k], s.lists[k]);
    var list := s.lists[k];
    assert list == [r] + list[1..];
    OnlyAt(s, pages, r, OnList(k));
    assert forall q :: q in s'.lists[k] <==> q in list && q != r;
    hide Conserved, LocksOk, ChainsOk, PcsOk, Target;
    forall q, pl | q != 0
      ensures IsAt(s', q, pl) <==> if q == r then pl == InFlight(c) else IsAt(s, q, pl)
    {
      assert IsAt(s, r, pl) <==> pl == OnList(k);
    }
    CarriesConserved(s, s', pages, r, InFlight(c));
  }

  lemma UnlockConserved(s: State, pages: set<nat>, c: nat, i: nat, r: nat)
    requires Inv(s, pages) && Enabled(s, c) && s.pcs[c] == AllocUnlock(i, r)
    ensures Conserved(Own(s, c), pages)
  {
    var s' := Own(s, c);
    if r != 0 {
      OnlyAt(s, pages, r, InFlight(c));
      hide Conserved, LocksOk, ChainsOk, PcsOk, Target;
      forall q, pl | q != 0
        ensures IsAt(s', q, pl) <==> if q == r then pl == Owned else IsAt(s, q, pl)
      {
        assert IsAt(s, r, pl) <==> pl == InFlight(c);
      }
      CarriesConserved(s, s', pages, r, Owned);
    } else {
      hide LocksOk, ChainsOk, PcsOk, Target;
      SameConserved(s, s', pages);
    }
  }

  // c takes the lock of list k, gives it up, or keeps what it holds.
  lemma LocksKept(s: State, s': State, c: nat)
    requires Sized(s) && LocksOk(s) && c < |s.pcs| && Sized(s') && |s'.pcs| == |s.pcs|
    requires s'.pcs == s.pcs[c := s'.pcs[c]]
    requires var k, k' := Holds(s.pcs[c], c, |s.pcs|), Holds(s'.pcs[c], c, |s.pcs|);
             || (k' == k && s'.lock == s.lock)
             || (k == -1 && k' >= 0 && s.lock[k'] == Nobody && s'.lock == s.lock[k' := By(c)])
             || (k >= 0 && k' == -1 && s'.lock == s.lock[k := Nobody])
    ensures LocksOk(s')
  {
  }

  lemma NextLocks(s: State, c: nat, a: Action)
    requires Sized(s) && LocksOk(s) && Allowed(s, c, a)
    ensures Sized(Next(s, c, a)) && LocksOk(Next(s, c, a))
  {
    hide Target, LocksOk;
    LocksKept(s, Next(s, c, a), c);
  }

  lemma LinkChains(s: State, pages: set<nat>, c: nat, pa: nat)
    requires Inv(s, pages) && Enabled(s, c) && s.pcs[c] == FreeLink(pa)
    ensures ChainsOk(Own(s, c))
  {
    assert PcOk(s, c);
    OnlyAt(s, pages, pa, InFlight(c));
    hide Conserved;
    forall k: nat | k < |s.lists|
      ensures Chain(Own(s, c).next, s.freelist[k], s.lists[k])
    {
      assert !IsAt(s, pa, OnList(k));
      ChainFrame(s.next, s.freelist[k], s.lists[k], pa, s.freelist[c]);
    }
  }

  lemma StoreChains(s: State, pages: set<nat>, c: nat, pa: nat)
    requires Inv(s, pages) && Enabled(s, c) && s.pcs[c] == FreeStore(pa)
    ensures ChainsOk(Own(s, c))
  {
    assert PcOk(s, c);
    OnlyAt(s, pages, pa, InFlight(c));
    assert !IsAt(s, pa, OnList(c));
    ChainPush(s.next, s.freelist[c], s.lists[c], pa);
    assert s.next == s.next[pa := s.freelist[c]];
    hide Chain, Conserved;
  }

  lemma TakeChains(s: State, pages: set<nat>, c: nat, i: nat, r: nat)
    requires Inv(s, pages) && Enabled(s, c) && s.pcs[c] == AllocTake(i, r)
    ensures ChainsOk(Own(s, c))
  {
    assert PcOk(s, c);
    ChainPop(s.next, r, s.lists[Target(c, i, |s.pcs|)]);
    hide Chain, Conserved;
  }

  lemma NextChains(s: State, pages: set<nat>, c: nat, a: Action)
    requires Inv(s, pages) && Allowed(s, c, a)
    ensures Sized(Next(s, c, a)) && ChainsOk(Next(s, c, a))
  {
    if a == Step && s.pcs[c].FreeLink? {
      LinkChains(s, pages, c, s.pcs[c].pa);
    } else if a == Step && s.pcs[c].FreeStore? {
      StoreChains(s, pages, c, s.pcs[c].pa);
    } else if a == Step && s.pcs[c].AllocTake? {
      TakeChains(s, pages, c, s.pcs[c].i, s.pcs[c].r);
    } else {
      hide Chain, Conserved, Target;
    }
  }

  // A CPU's program counter stays right while another CPU moves, because what
  // it says is about data under a lock it holds.
  lemma NextPcs(s: State, pages: set<nat>, c: nat, a: Action)
    requires Inv(s, pages) && Allowed(s, c, a)
    ensures Sized(Next(s, c, a)) && PcsOk(Next(s, c, a))
  {
    var s' := Next(s, c, a);
    forall d: nat | d < |s.pcs|
      ensures PcOk(s', d)
    {
      assert PcOk(s, d);
      if d == c {
        OwnPc(s, pages, c, a);
      } else if a == Step {
        OtherPc(s, pages, c, d);
      }
    }
  }

  lemma OwnPc(s: State, pages: set<nat>, c: nat, a: Action)
    requires Inv(s, pages) && Allowed(s, c, a)
    ensures Sized(Next(s, c, a)) && PcOk(Next(s, c, a), c)
  {
    assert PcOk(s, c);
    if a == Step && s.pcs[c].AllocLook? {
      var k := Target(c, s.pcs[c].i, |s.pcs|);
      assert Chain(s.next, s.freelist[k], s.lists[k]);
      assert s.lists[k] != [] ==> s.lists[k][0] in s.lists[k];
    }
    hide Target, Conserved, Chain, LocksOk;
  }

  lemma OtherPc(s: State, pages: set<nat>, c: nat, d: nat)
    requires Inv(s, pages) && Enabled(s, c) && d != c && d < |s.pcs|
    ensures Sized(Own(s, c)) && PcOk(Own(s, c), d)
  {
    assert PcOk(s, d) && PcOk(s, c);
    LocksExclude(s, c, d);
    if s.pcs[c].FreeLink? && s.pcs[d].FreeStore? {
      OnlyAt(s, pages, s.pcs[c].pa, InFlight(c));
      assert !IsAt(s, s.pcs[c].pa, InFlight(d));
    }
    hide Target, Conserved, Chain, LocksOk, ChainsOk, PcsOk, Looked;
  }

  lemma LocksExclude(s: State, c: nat, d: nat)
    requires Sized(s) && LocksOk(s) && c < |s.pcs| && d < |s.pcs| && c != d
    ensures Holds(s.pcs[c], c, |s.pcs|) >= 0 ==> Holds(s.pcs[d], d, |s.pcs|) != Holds(s.pcs[c], c, |s.pcs|)
  {
  }

  lemma NextInv(s: State, pages: set<nat>, c: nat, a: Action)
    requires Inv(s, pages) && Allowed(s, c, a)
    ensures Inv(Next(s, c, a), pages)
  {
    NextLocks(s, c, a);
    NextChains(s, pages, c, a);
    NextPcs(s, pages, c, a);
    if a.Step? {
      StepConserved(s, pages, c);
    } else {
      CallConserved(s, pages, c, a);
    }
  }

  /* Whole runs. */

  // At boot nothing is free; kinit hands all pages to the allocator with kfree.
  function Init(n: nat, pages: set<nat>): State {
    State(seq(n, _ => 0), map[], seq(n, _ => Nobody), seq(n, _ => Idle), pages, seq(n, _ => []), seq(n, _ => {}))
  }

  datatype Move = Move(c: nat, a: Action)

  ghost predicate IsRun(ss: seq<State>, ms: seq<Move>, n: nat, pages: set<nat>) {
    && 0 < n && 0 !in pages
    && |ss| == |ms| + 1
    && ss[0] == Init(n, pages)
    && forall i | 0 <= i < |ms| :: Allowed(ss[i], ms[i].c, ms[i].a) && ss[i + 1] == Next(ss[i], ms[i].c, ms[i].a)
  }

  lemma InitInv(n: nat, pages: set<nat>)
    requires 0 < n && 0 !in pages
    ensures Inv(Init(n, pages), pages)
  {
    var s := Init(n, pages);
    forall p | p in pages
      ensures exists pl :: IsAt(s, p, pl)
    {
      assert IsAt(s, p, Owned);
    }
  }

  lemma {:induction false} RunInv(ss: seq<State>, ms: seq<Move>, n: nat, pages: set<nat>, i: nat)
    requires IsRun(ss, ms, n, pages) && i < |ss|
    ensures Inv(ss[i], pages) && |ss[i].pcs| == n
  {
    if i == 0 {
      InitInv(n, pages);
    } else {
      RunInv(ss, ms, n, pages, i - 1);
      NextInv(ss[i - 1], pages, ms[i - 1].c, ms[i - 1].a);
    }
  }

  // The page a kalloc returns belonged to nobody: no caller owns it, no list
  // has it, and no other kalloc or kfree carries it.
  lemma NoDoubleOwner(ss: seq<State>, ms: seq<Move>, n: nat, pages: set<nat>, i: nat, c: nat)
    requires IsRun(ss, ms, n, pages) && i < |ms| && ms[i] == Move(c, Step)
    requires ss[i].pcs[c].AllocUnlock? && ss[i].pcs[c].r != 0
    ensures var s, r := ss[i], ss[i].pcs[c].r;
            && r in pages && r !in s.owned && r in ss[i + 1].owned
            && (forall k | 0 <= k < |s.lists| :: r !in s.lists[k])
            && (forall d | 0 <= d < |s.pcs| && d != c :: Carried(s.pcs[d]) != r)
  {
    RunInv(ss, ms, n, pages, i);
    var s, r := ss[i], ss[i].pcs[c].r;
    OnlyAt(s, pages, r, InFlight(c));
    assert !IsAt(s, r, Owned);
    forall k | 0 <= k < |s.lists|
      ensures r !in s.lists[k]
    {
      assert !IsAt(s, r, OnList(k));
    }
    forall d | 0 <= d < |s.pcs| && d != c
      ensures Carried(s.pcs[d]) != r
    {
      assert !IsAt(s, r, InFlight(d));
    }
  }

  /* Progress. */

  // Holding one lock, a CPU never waits for another.
  lemma OneLockAtATime(pc: Pc, c: nat, n: nat)
    requires c < n
    ensures Holds(pc, c, n) == -1 || WaitsFor(pc, c, n) == -1
  {
  }

  // While any operation is unfinished, some unfinished operation can go on.
  lemma SomeoneCanStep(s: State, pages: set<nat>, c: nat) returns (d: nat)
    requires Inv(s, pages) && c < |s.pcs| && s.pcs[c] != Idle
    ensures Enabled(s, d)
  {
    var n := |s.pcs|;
    var k := WaitsFor(s.pcs[c], c, n);
    d := c;
    if k >= 0 && s.lock[k].By? {
      d := s.lock[k].c;
      assert Holds(s.pcs[d], d, n) == k;
      OneLockAtATime(s.pcs[d], d, n);
    }
    assert PcOk(s, d);
    if s.pcs[d].AllocTake? {
      var t := Target(d, s.pcs[d].i, n);
      ChainPop(s.next, s.freelist[t], s.lists[t]);
    }
  }

  // A bound on the steps an operation still takes.
  function Work(pc: Pc, n: nat): int {
    match pc
    case Idle => 0
    case FreeWait(_) => 4
    case FreeLink(_) => 3
    case FreeStore(_) => 2
    case FreeUnlock => 1
    case AllocWait(i) => 4 * (n - i)
    case AllocLook(i) => 4 * (n - i) - 1
    case AllocTake(i, _) => 4 * (n - i) - 2
    case AllocUnlock(i, _) => 4 * (n - i) - 3
  }

  // Every operation takes at most 4 * NCPU steps of its own, whatever the other
  // CPUs do meanwhile.
  lemma WorkDecreases(s: State, pages: set<nat>, c: nat, a: Action, d: nat)
    requires Inv(s, pages) && Allowed(s, c, a) && d < |s.pcs|
    ensures |Next(s, c, a).pcs| == |s.pcs|
    ensures var w, w' := Work(s.pcs[d], |s.pcs|), Work(Next(s, c, a).pcs[d], |s.pcs|);
            && 0 <= w <= 4 * |s.pcs|
            && (d != c ==> Next(s, c, a).pcs[d] == s.pcs[d])
            && (d == c && a == Step ==> 0 <= w' < w)
  {
    hide Conserved, LocksOk, ChainsOk, Target, Looked;
    assert PcOk(s, d) && PcOk(s, c);
  }

  /* What a kalloc that returns 0 has seen. */

  // Between times a and b CPU c is inside one kalloc, begun at a.
  ghost predicate InsideAlloc(ss: seq<State>, c: nat, a: nat, b: nat) {
    && a <= b < |ss| && Sized(ss[a]) && c < |ss[a].pcs|
    && ss[a].pcs[c] == AllocWait(0)
    && ss[a].empties[c] == {}
    && forall t | a <= t <= b :: Sized(ss[t]) && |ss[t].pcs| == |ss[a].pcs| && ss[t].pcs[c] != Idle
  }

  ghost predicate EmptyAt(ss: seq<State>, k: nat, t: nat) {
    t < |ss| && k < |ss[t].lists| && ss[t].lists[k] == []
  }

  lemma {:induction false} SeenEmpty(ss: seq<State>, ms: seq<Move>, n: nat, pages: set<nat>, c: nat, a: nat,
                                     b: nat, k: nat)
    requires IsRun(ss, ms, n, pages) && InsideAlloc(ss, c, a, b) && k in ss[b].empties[c]
    ensures exists t :: a <= t < b && EmptyAt(ss, k, t)
    decreases b
  {
    assert b > a;
    var s, m := ss[b - 1], ms[b - 1];
    assert ss[b] == Next(s, m.c, m.a) && Allowed(s, m.c, m.a);
    if k in s.empties[c] {
      SeenEmpty(ss, ms, n, pages, c, a, b - 1, k);
    } else {
      NewlyEmpty(s, m.c, m.a, c, k);
      assert EmptyAt(ss, k, b - 1);
    }
  }

  // The history only records lists that are empty when it does.
  lemma NewlyEmpty(s: State, d: nat, a: Action, c: nat, k: nat)
    requires Allowed(s, d, a) && c < |s.pcs| && k !in s.empties[c] && k in Next(s, d, a).empties[c]
    ensures k < |s.lists| && s.lists[k] == []
  {
  }

  // A kalloc about to return 0 found each list empty at some moment since it began.
  lemma ZeroMeansSeenEmpty(ss: seq<State>, ms: seq<Move>, n: nat, pages: set<nat>, c: nat, a: nat, b: nat, k: nat)
    requires IsRun(ss, ms, n, pages) && InsideAlloc(ss, c, a, b) && k < n
    requires ss[b].pcs[c] == AllocUnlock(n - 1, 0)
    ensures exists t :: a <= t < b && EmptyAt(ss, k, t)
  {
    RunInv(ss, ms, n, pages, b);
    assert PcOk(ss[b], c);
    var i := TargetsReachAll(c, k, n);
    LookedAt(c, i, n, n);
    SeenEmpty(ss, ms, n, pages, c, a, b, k);
  }

  lemma {:induction false} LookedAt(c: nat, i: nat, j: nat, n: nat)
    requires i < j && n > 0
    ensures Target(c, i, n) in Looked(c, j, n)
  {
    if i + 1 < j {
      LookedAt(c, i, j - 1, n);
    }
  }

  /* Alone, a kalloc computes what AllocSpec says. */

  ghost predicate Alone(s: State, c: nat) {
    Sized(s) && c < |s.pcs| && forall d | 0 <= d < |s.pcs| && d != c :: s.pcs[d] == Idle
  }

  // The state in which CPU c, running alone, finishes its operation.
  ghost function Finish(s: State, pages: set<nat>, c: nat): State
    requires Inv(s, pages) && Alone(s, c)
    decreases Work(s.pcs[c], |s.pcs|)
  {
    if s.pcs[c] == Idle then s
    else
      AloneEnabled(s, pages, c);
      NextInv(s, pages, c, Step);
      WorkDecreases(s, pages, c, Step, c);
      Finish(Own(s, c), pages, c)
  }

  lemma AloneEnabled(s: State, pages: set<nat>, c: nat)
    requires Inv(s, pages) && Alone(s, c) && s.pcs[c] != Idle
    ensures Enabled(s, c) && Alone(Own(s, c), c)
  {
    var d := SomeoneCanStep(s, pages, c);
    assert d == c;
    hide Inv, Target;
  }

  lemma FinishStep(s: State, pages: set<nat>, c: nat)
    requires Inv(s, pages) && Alone(s, c) && s.pcs[c] != Idle
    ensures Enabled(s, c) && Inv(Own(s, c), pages) && Alone(Own(s, c), c)
    ensures Finish(s, pages, c) == Finish(Own(s, c), pages, c)
  {
    AloneEnabled(s, pages, c);
    NextInv(s, pages, c, Step);
  }

  // CPU c tries its i-th target: it finishes with the list's first page, or
  // goes on to the next target with everything as before.
  lemma AloneTry(s: State, pages: set<nat>, c: nat, i: nat) returns (s': State)
    requires Inv(s, pages) && Alone(s, c) && s.pcs[c] == AllocWait(i)
    ensures Inv(s', pages) && Alone(s', c) && Finish(s', pages, c) == Finish(s, pages, c)
    ensures |s'.pcs| == |s.pcs| && i < |s.pcs|
    ensures var n := |s.pcs|; var k := Target(c, i, n);
            if s.lists[k] == [] then
              s'.pcs[c] == (if i + 1 < n then AllocWait(i + 1) else Idle) && s'.lists == s.lists && s'.owned == s.owned
            else
              s'.pcs[c] == Idle && s'.lists == Popped(s.lists, k) && s'.owned == s.owned + {s.lists[k][0]}
  {
    var k := Target(c, i, |s.pcs|);
    assert PcOk(s, c) && Chain(s.next, s.freelist[k], s.lists[k]);
    assert s.lists[k] != [] ==> s.lists[k][0] in s.lists[k];
    FinishStep(s, pages, c);
    var s1 := Own(s, c);
    FinishStep(s1, pages, c);
    var s2 := Own(s1, c);
    FinishStep(s2, pages, c);
    var s3 := Own(s2, c);
    hide Inv, Finish, Target;
    if s.lists[k] != [] {
      FinishStep(s3, pages, c);
      s' := Own(s3, c);
    } else {
      s' := s3;
    }
  }

  lemma {:induction false} AloneFrom(s: State, pages: set<nat>, c: nat, i: nat)
    requires Inv(s, pages) && Alone(s, c) && s.pcs[c] == AllocWait(i)
    ensures i < |s.pcs|
    ensures var f, n, j := Finish(s, pages, c), |s.pcs|, FirstNonEmpty(s.lists, c, i);
            && |f.pcs| == n && f.pcs[c] == Idle
            && (j == n ==> f.lists == s.lists && f.owned == s.owned)
            && (j < n ==> var k := Target(c, j, n);
                          f.lists == Popped(s.lists, k) && f.owned == s.owned + {s.lists[k][0]})
    decreases |s.pcs| - i
  {
    var s' := AloneTry(s, pages, c, i);
    if s'.pcs[c] != Idle {
      hide Inv, Alone;
      AloneFrom(s', pages, c, i + 1);
    }
  }

  // Run alone from a quiet state, the protocol's kalloc is AllocSpec.
  lemma AloneIsAllocSpec(s: State, pages: set<nat>, c: nat)
    requires Inv(s, pages) && Alone(s, c) && s.pcs[c] == Idle
    ensures var s0 := Next(s, c, CallAlloc); var (r, lists) := AllocSpec(s.lists, c);
            && Inv(s0, pages) && Alone(s0, c)
            && var f := Finish(s0, pages, c);
            && f.lists == lists && f.owned == s.owned + (if r == 0 then {} else {r})
  {
    NextInv(s, pages, c, CallAlloc);
    var s0 := Next(s, c, CallAlloc);
    AloneFrom(s0, pages, c, 0);
    var j := FirstNonEmpty(s.lists, c, 0);
    if j < |s.pcs| {
      var k := Target(c, j, |s.pcs|);
      assert s.lists[k][0] in s.lists[k];
      assert Chain(s.next, s.freelist[k], s.lists[k]);
    }
  }

  // And its kfree puts the page in front of the CPU's own list.
  lemma AloneFrees(s: State, pages: set<nat>, c: nat, pa: nat)
    requires Inv(s, pages) && Alone(s, c) && s.pcs[c] == Idle && pa in s.owned
    ensures var s0 := Next(s, c, CallFree(pa));
            && Inv(s0, pages) && Alone(s0, c)
            && var f := Finish(s0, pages, c);
            && |f.pcs| == |s.pcs| && f.pcs[c] == Idle
            && f.lists == s.lists[c := [pa] + s.lists[c]] && f.owned == s.owned - {pa}
  {
    NextInv(s, pages, c, CallFree(pa));
    var s0 := Next(s, c, CallFree(pa));
    FinishStep(s0, pages, c);
    var s1 := Own(s0, c);
    FinishStep(s1, pages, c);
    var s2 := Own(s1, c);
    FinishStep(s2, pages, c);
    var s3 := Own(s2, c);
    FinishStep(s3, pages, c);
    hide Inv;
  }
}
