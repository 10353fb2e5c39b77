/** Mapping, unmapping, growing, shrinking and copying of user memory. */
module Uvm {
  import opened Sv39
  import opened Vm

  // The pages that sz bytes take up, the last one perhaps in part.
  function Pages(sz: nat): nat {
    (sz + 4095) / 4096
  }

  predicate Aligned(va: nat) { va % 4096 == 0 }

  // The page of the last of size bytes from va on.
  function LastPage(va: nat, size: nat): int {
    (va + size - 1) / 4096
  }

  // The tables that may be missing on the way to pages lo to hi: those of the
  // first page, and two for each further block of 512 pages.
  ghost function RangeLacks(s: Snap, root: nat, lo: nat, hi: nat): int {
    if lo >= hi then 0 else Lacks(s, root, lo) + 2 * ((hi - 1) / 512 - lo / 512)
  }

  // The blocks of 512 pages that pages lo to hi lie in.
  function Blocks(lo: nat, hi: nat): nat {
    if lo >= hi then 0 else (hi - 1) / 512 - lo / 512 + 1
  }

  lemma RangeLacksBound(s: Snap, root: nat, lo: nat, hi: nat)
    ensures 0 <= RangeLacks(s, root, lo, hi) <= 2 * Blocks(lo, hi)
  {
  }

  // One page more, with the tables for the pages before in place since s0.
  lemma LacksNext(s0: Snap, s: Snap, root: nat, lo: nat, a: nat)
    requires PathsKept(s0, s) && IsRoot(s0.loc, root) && lo <= a
    requires lo < a ==> a <= MAXVPN && Table0(s.pt, root, a - 1) != 0
    ensures Lacks(s, root, a) + RangeLacks(s0, root, lo, a) <= RangeLacks(s0, root, lo, a + 1)
  {
    if lo < a && (a - 1) / 512 == a / 512 {
      SameBlock(s.pt, root, a - 1, a);
    }
    hide Table0;
  }

  lemma SameBlock(pt: Heap, root: nat, v: nat, w: nat)
    requires v / 512 == w / 512
    ensures Table0(pt, root, v) == Table0(pt, root, w)
  {
    assert v / 262144 == v / 512 / 512 && w / 262144 == w / 512 / 512;
  }

  lemma RangeLacksNone(s: Snap, root: nat, lo: nat)
    ensures RangeLacks(s, root, lo, lo) == 0
  {
  }

  lemma RangeLacksMore(s: Snap, root: nat, lo: nat, a: nat, hi: nat)
    requires a <= hi
    ensures RangeLacks(s, root, lo, a) <= RangeLacks(s, root, lo, hi)
  {
  }

  /* Mapping. */

  // No translation and no frame changed; there may be more empty tables.
  ghost predicate Quiet(s: Snap, s': Snap, root: nat) {
    Step(s, s', root, 0, 0) && s'.used == s.used
  }

  // Virtual pages lo to hi are mapped to consecutive physical pages.
  ghost predicate MappedRun(pt: Heap, root: nat, lo: nat, hi: nat, perm: set<Flag>, ppn: nat) {
    && (lo < hi ==> hi <= MAXVPN)
    && forall v: nat | lo <= v < hi :: Entry(pt, root, v) == Pte(perm + {V}, ppn + (v - lo))
  }

  ghost predicate Unmapped(pt: Heap, root: nat, lo: nat, hi: nat) {
    forall v: nat | lo <= v < hi :: !Present(Entry(pt, root, v))
  }

  // From s0 to s, pages lo to hi were mapped in the page table at root, and
  // nothing else about any translation changed.
  ghost predicate MapsRun(s0: Snap, s: Snap, root: nat, lo: nat, hi: nat, perm: set<Flag>, ppn: nat) {
    && IsRoot(s0.loc, root) && IsRoot(s.loc, root) && s.used == s0.used
    && Step(s0, s, root, lo, hi)
    && Unmapped(s0.pt, root, lo, hi)
    && MappedRun(s.pt, root, lo, hi, perm, ppn)
  }

  lemma MapsNone(s: Snap, root: nat, lo: nat, perm: set<Flag>, ppn: nat)
    requires IsRoot(s.loc, root)
    ensures MapsRun(s, s, root, lo, lo, perm, ppn)
  {
  }

  lemma MapMore(s0: Snap, s: Snap, s': Snap, root: nat, lo: nat, a: nat, perm: set<Flag>, ppn: nat)
    requires MapsRun(s0, s, root, lo, a, perm, ppn) && lo <= a < MAXVPN
    requires Step(s, s', root, a, a + 1) && s'.used == s.used
    requires Entry(s'.pt, root, a) == Pte(perm + {V}, ppn + (a - lo)) && !Present(Entry(s.pt, root, a))
    ensures MapsRun(s0, s', root, lo, a + 1, perm, ppn)
  {
    hide Entry, Table0, Present;
    StepJoin(s0, s, s', root, lo, a, a, a + 1, lo, a + 1);
    forall v: nat | lo <= v < a
      ensures Entry(s'.pt, root, v) == Entry(s.pt, root, v)
    {
      StepSame(s, s', root, a, a + 1, v);
    }
  }

  lemma MapStops(s0: Snap, s: Snap, s': Snap, root: nat, lo: nat, a: nat, perm: set<Flag>, ppn: nat)
    requires MapsRun(s0, s, root, lo, a, perm, ppn) && Step(s, s', root, 0, 0) && s'.used == s.used
    ensures MapsRun(s0, s', root, lo, a, perm, ppn)
    ensures a < MAXVPN ==> Entry(s.pt, root, a) == Entry(s0.pt, root, a)
  {
  }

  lemma MapsRunRoot(s0: Snap, s: Snap, root: nat, lo: nat, a: nat, perm: set<Flag>, ppn: nat)
    requires MapsRun(s0, s, root, lo, a, perm, ppn)
    ensures IsRoot(s.loc, root)
  {
  }

  lemma MapsLacks(s0: Snap, s: Snap, pages: set<nat>, root: nat, lo: nat, a: nat, perm: set<Flag>, ppn: nat)
    requires MapsRun(s0, s, root, lo, a, perm, ppn) && Good(s, pages) && lo <= a
    ensures Lacks(s, root, a) + RangeLacks(s0, root, lo, a) <= RangeLacks(s0, root, lo, a + 1)
  {
    if lo < a {
      assert Present(Entry(s.pt, root, a - 1));
      PresentHasTable(s, pages, root, a - 1);
    }
    LacksNext(s0, s, root, lo, a);
  }

  predicate LeafPerm(perm: set<Flag>) { R in perm || W in perm || X in perm }

  // One turn of the loop of mappages.
  method MapNext(m: Memory, root: nat, a: nat, ppn: nat, perm: set<Flag>, ghost s0: Snap, ghost lo: nat,
                 ghost ppn0: nat)
    returns (r: MapResult)
    requires m.Inv() && MapsRun(s0, m.S(), root, lo, a, perm, ppn0)
    requires lo <= a && ppn == ppn0 + (a - lo) && LeafPerm(perm)
    modifies m
    ensures m.Inv() && MapsRun(s0, m.S(), root, lo, if r.Mapped? then a + 1 else a, perm, ppn0)
    ensures r.Mapped? ==> a < MAXVPN
    ensures r.NoMemory? ==> m.free == {}
    ensures r.Panic? ==> a >= MAXVPN || Present(Entry(s0.pt, root, a))
    ensures Enough(!r.NoMemory?, RangeLacks(s0, root, lo, a + 1) - RangeLacks(s0, root, lo, a), old(m.free), m.free)
  {
    ghost var k := m.S();
    MapsRunRoot(s0, k, root, lo, a, perm, ppn0);
    MapsLacks(s0, k, m.pages, root, lo, a, perm, ppn0);
    var e := Pte(perm + {V}, ppn);
    assert Leaf(e);
    hide RangeLacks, Lacks, Good, Step, Entry, MapsRun, IsRoot, Leaf, Present;
    r := m.MapOne(root, a, e);
    if r.Mapped? {
      MapMore(s0, k, m.S(), root, lo, a, perm, ppn0);
    } else {
      MapStops(s0, k, m.S(), root, lo, a, perm, ppn0);
    }
  }

  // The loop of mappages, in pages. `stop` is the first page it did not map.
  method MapRange(m: Memory, root: nat, lo: nat, last: int, ppn0: nat, perm: set<Flag>)
    returns (r: MapResult, ghost stop: nat)
    requires m.Inv() && IsRoot(m.loc, root) && LeafPerm(perm)
    modifies m
    ensures m.Inv() && lo <= stop && MapsRun(old(m.S()), m.S(), root, lo, stop, perm, ppn0)
    ensures r.Mapped? ==> stop == last + 1 && lo < stop <= MAXVPN
    ensures !r.Mapped? && lo <= last ==> stop <= last
    ensures r.NoMemory? ==> m.free == {}
    ensures r.Panic? ==> stop >= MAXVPN || Present(Entry(old(m.pt), root, stop))
    ensures lo <= last ==> Enough(!r.NoMemory?, RangeLacks(old(m.S()), root, lo, last + 1), old(m.free), m.free)
  {
    hide RangeLacks, Good, Step, Entry, IsRoot, MapsRun, Present, LeafPerm;
    ghost var s := m.S();
    var a, ppn := lo, ppn0;
    MapsNone(s, root, lo, perm, ppn);
    RangeLacksNone(s, root, lo);
    while true
      invariant m.Inv() && lo <= a && MapsRun(s, m.S(), root, lo, a, perm, ppn0)
      invariant ppn == ppn0 + (a - lo) && (lo <= last ==> a <= last)
      invariant |s.free| <= |m.free| + RangeLacks(s, root, lo, a)
      decreases MAXVPN - a
    {
      if lo <= last {
        RangeLacksMore(s, root, lo, a + 1, last + 1);
      }
      r := MapNext(m, root, a, ppn, perm, s, lo, ppn0);
      stop := if r.Mapped? then a + 1 else a;
      if !r.Mapped? || a == last {
        return;
      }
      a, ppn := a + 1, ppn + 1;
    }
  }

  // Page after page is mapped to frame after frame, with those rights and valid; all
  // other pages of all page tables translate as before.
  lemma MapsMean(s0: Snap, s: Snap, root: nat, lo: nat, hi: nat, perm: set<Flag>, ppn: nat)
    requires MapsRun(s0, s, root, lo, hi, perm, ppn)
    ensures forall v: nat | lo <= v < hi ::
              V !in Entry(s0.pt, root, v).flags && Entry(s.pt, root, v) == Pte(perm + {V}, ppn + (v - lo))
    ensures forall r, v: nat | IsRoot(s0.loc, r) && v < VPNS && !(r == root && lo <= v < hi) ::
              Entry(s.pt, r, v) == Entry(s0.pt, r, v)
  {
    hide Entry, Table0;
  }

  // mappages. Maps pages from va on until it has mapped the one that holds the
  // last byte.
  method MapPages(m: Memory, root: nat, va: nat, size: nat, pa: nat, perm: set<Flag>)
    returns (r: MapResult, ghost stop: nat)
    requires m.Inv() && IsRoot(m.loc, root) && LeafPerm(perm)
    modifies m
    ensures m.Inv() && MapsRun(old(m.S()), m.S(), root, PageOf(va), stop, perm, PageOf(pa))
    ensures forall v: nat | va / 4096 <= v < stop ::
              V !in Entry(old(m.pt), root, v).flags
              && Entry(m.pt, root, v) == Pte(perm + {V}, pa / 4096 + (v - va / 4096))
    ensures forall r, v: nat | IsRoot(old(m.loc), r) && v < VPNS && !(r == root && va / 4096 <= v < stop) ::
              Entry(m.pt, r, v) == Entry(old(m.pt), r, v)
    ensures r.Mapped? ==> stop == LastPage(va, size) + 1 && PageOf(va) < stop <= MAXVPN
    ensures PageOf(va) <= stop && (!r.Mapped? && PageOf(va) <= LastPage(va, size) ==> stop <= LastPage(va, size))
    ensures r.NoMemory? ==> m.free == {}
    ensures r.Panic? ==> stop >= MAXVPN || Present(Entry(old(m.pt), root, stop))
    ensures PageOf(va) <= LastPage(va, size) ==>
              Enough(!r.NoMemory?, RangeLacks(old(m.S()), root, PageOf(va), LastPage(va, size) + 1),
                     old(m.free), m.free)
  {
    hide RangeLacks, Good, Step, Entry, IsRoot, MapsRun, Present, LeafPerm, LastPage;
    ghost var s := m.S();
    r, stop := MapRange(m, root, PageOf(va), LastPage(va, size), PageOf(pa), perm);
    MapsMean(s, m.S(), root, PageOf(va), stop, perm, PageOf(pa));
  }

  // mappages for the one page a.
  method MapPage(m: Memory, root: nat, a: nat, ppn: nat, perm: set<Flag>) returns (r: MapResult)
    requires m.Inv() && IsRoot(m.loc, root) && LeafPerm(perm)
    modifies m
    ensures m.Inv() && m.used == old(m.used)
    ensures r.Mapped? ==> a < MAXVPN && Step(old(m.S()), m.S(), root, a, a + 1)
                          && !Present(Entry(old(m.pt), root, a)) && Entry(m.pt, root, a) == Pte(perm + {V}, ppn)
    ensures !r.Mapped? ==> Step(old(m.S()), m.S(), root, 0, 0)
    ensures r.NoMemory? ==> m.free == {}
    ensures r.Panic? ==> a >= MAXVPN || Present(Entry(old(m.pt), root, a))
    ensures Enough(!r.NoMemory?, Lacks(old(m.S()), root, a), old(m.free), m.free)
  {
    ghost var s := m.S();
    assert RangeLacks(s, root, a, a + 1) == Lacks(s, root, a);
    hide RangeLacks, Lacks, Good, Step, Entry, IsRoot, Present, LeafPerm;
    ghost var stop;
    r, stop := MapRange(m, root, a, a, ppn, perm);
    if r.Mapped? {
      MapsOne(s, m.S(), root, a, stop, perm, ppn);
    } else {
      MapsZero(s, m.S(), root, a, stop, perm, ppn);
    }
  }

  lemma MapsOne(s: Snap, s': Snap, root: nat, a: nat, stop: nat, perm: set<Flag>, ppn: nat)
    requires MapsRun(s, s', root, a, stop, perm, ppn) && stop == a + 1
    ensures a < MAXVPN && s'.used == s.used && Step(s, s', root, a, a + 1)
    ensures !Present(Entry(s.pt, root, a)) && Entry(s'.pt, root, a) == Pte(perm + {V}, ppn)
  {
  }

  lemma MapsZero(s: Snap, s': Snap, root: nat, a: nat, stop: nat, perm: set<Flag>, ppn: nat)
    requires MapsRun(s, s', root, a, stop, perm, ppn) && a <= stop <= a
    ensures s'.used == s.used && Step(s, s', root, 0, 0)
    ensures Present(Entry(s.pt, root, stop)) ==> Present(Entry(s.pt, root, a))
  {
  }

  /* Unmapping. */

  // The frames behind pages lo to hi of the page table at root.
  ghost function Frames(used: map<nat, Use>, root: nat, lo: nat, hi: nat): set<nat> {
    set p | p in used && used[p].Frame? && used[p].root == root && lo <= used[p].vpn < hi
  }

  // What is mapped at page v of root is a frame that belongs there and nowhere else.
  ghost predicate Owned(s: Snap, root: nat, v: nat) {
    var e := Entry(s.pt, root, v);
    && (Present(e) ==> e.ppn in s.used && s.used[e.ppn] == Frame(root, v))
    && (forall p | p in s.used && s.used[p] == Frame(root, v) :: Present(e) && e.ppn == p)
  }

  ghost predicate AllOwned(s: Snap, root: nat, lo: nat, hi: nat) {
    forall v: nat | lo <= v < hi :: v < MAXVPN && Owned(s, root, v)
  }

  ghost function Dropped(s: Snap, free: bool, root: nat, lo: nat, hi: nat): set<nat> {
    if free then Frames(s.used, root, lo, hi) else {}
  }

  // From s0 to s, pages lo to hi were unmapped in the page table at root, with
  // their frames freed or not, and nothing else changed.
  ghost predicate Unmaps(s0: Snap, s: Snap, root: nat, lo: nat, hi: nat, doFree: bool) {
    && IsRoot(s0.loc, root) && s.loc == s0.loc && Step(s0, s, root, lo, hi)
    && (forall v: nat | lo <= v < hi :: Present(Entry(s0.pt, root, v)) && Entry(s.pt, root, v) == ZERO_PTE)
    && s.free == s0.free + Dropped(s0, doFree, root, lo, hi)
    && s.used == s0.used - Dropped(s0, doFree, root, lo, hi)
  }

  lemma UnmapsNone(s: Snap, root: nat, lo: nat, doFree: bool)
    requires IsRoot(s.loc, root)
    ensures Unmaps(s, s, root, lo, lo, doFree)
  {
  }

  // One page: what the body of the loop of uvmunmap does to it.
  ghost predicate UnmapsOne(s: Snap, s': Snap, root: nat, a: nat, doFree: bool) {
    var e := Entry(s.pt, root, a);
    && a < MAXVPN && Present(e) && Entry(s'.pt, root, a) == ZERO_PTE
    && s'.loc == s.loc && Step(s, s', root, a, a + 1)
    && s'.free == (if doFree then s.free + {e.ppn} else s.free)
    && s'.used == (if doFree then s.used - {e.ppn} else s.used)
  }

  lemma UnmapMore(s0: Snap, s: Snap, s': Snap, root: nat, lo: nat, a: nat, doFree: bool)
    requires Unmaps(s0, s, root, lo, a, doFree) && lo <= a && UnmapsOne(s, s', root, a, doFree)
    requires doFree ==> Owned(s0, root, a)
    ensures Unmaps(s0, s', root, lo, a + 1, doFree)
  {
  }

  // kfree of a page in use.
  method FreeFrame(m: Memory, p: nat)
    requires m.Inv() && p in m.used
    modifies m
    ensures m.Inv() && m.S() == old(m.S()).(free := old(m.free) + {p}, used := old(m.used) - {p})
  {
    assert p !in m.pt.Keys && p !in m.loc.Keys;
    hide Shape;
    assert m.pt - {p} == m.pt && m.loc - {p} == m.loc;
    assert p in m.pages && p !in m.free;
    hide Good;
    FrameFreed(m.S(), m.pages);
    m.Kfree(p);
  }

  lemma FrameFreed(s: Snap, pages: set<nat>)
    requires Good(s, pages)
    ensures Accounts(s, pages)
    ensures forall s': Snap :: Accounts(s', pages) && s'.pt == s.pt && s'.loc == s.loc ==> Good(s', pages)
  {
  }

  ghost predicate Missing(s: Snap, root: nat, v: nat) {
    v >= MAXVPN || !Present(Entry(s.pt, root, v))
  }

  // uvmunmap for one page; false stands for a panic. A valid last-level entry is
  // a leaf, so the panic on an entry with no flag but V cannot happen.
  method UnmapPage(m: Memory, root: nat, a: nat, doFree: bool) returns (ok: bool)
    requires m.Inv() && IsRoot(m.loc, root) && (doFree ==> Owned(m.S(), root, a))
    modifies m
    ensures m.Inv()
    ensures ok ==> UnmapsOne(old(m.S()), m.S(), root, a, doFree)
    ensures !ok ==> m.S() == old(m.S()) && Missing(m.S(), root, a)
  {
    ghost var s := m.S();
    var slot := m.Walk(root, Addr(a), false);
    if slot.Panicked? {
      return false;
    } else if slot.NoTable? {
      if Present(Entry(s.pt, root, a)) {
        PresentHasTable(s, m.pages, root, a);
      }
      return false;
    }
    m.SlotEntry(root, slot.table, a, ZERO_PTE);
    var e := m.pt[slot.table][slot.index];
    hide Good, OnPath, Step, Px, Shape, Entry;
    if !Present(e) {
      return false;
    }
    if doFree {
      FreeFrame(m, e.ppn);
    }
    ghost var k := m.S();
    m.WriteAt(root, slot.table, a, ZERO_PTE);
    StepFrames(s, k, m.S(), root, a);
    ok := true;
  }

  lemma StepFrames(s: Snap, k: Snap, s': Snap, root: nat, a: nat)
    requires k.pt == s.pt && k.loc == s.loc && Step(k, s', root, a, a + 1)
    ensures Step(s, s', root, a, a + 1)
  {
  }

  lemma OwnedKept(s0: Snap, s: Snap, root: nat, lo: nat, a: nat, doFree: bool)
    requires Unmaps(s0, s, root, lo, a, doFree) && a < MAXVPN && lo <= a
    ensures Entry(s.pt, root, a) == Entry(s0.pt, root, a)
    ensures Owned(s0, root, a) ==> Owned(s, root, a)
  {
  }

  lemma UnmapsRoot(s0: Snap, s: Snap, root: nat, lo: nat, a: nat, doFree: bool)
    requires Unmaps(s0, s, root, lo, a, doFree)
    ensures IsRoot(s.loc, root)
  {
  }

  // One turn of the loop of uvmunmap.
  method UnmapNext(m: Memory, root: nat, a: nat, doFree: bool, ghost s0: Snap, ghost lo: nat, ghost hi: nat)
    returns (ok: bool)
    requires m.Inv() && Unmaps(s0, m.S(), root, lo, a, doFree) && lo <= a < hi
    requires doFree ==> AllOwned(s0, root, lo, hi)
    modifies m
    ensures m.Inv() && Unmaps(s0, m.S(), root, lo, if ok then a + 1 else a, doFree)
    ensures ok ==> a < MAXVPN
    ensures !ok ==> m.S() == old(m.S()) && Missing(s0, root, a)
  {
    ghost var k := m.S();
    UnmapsRoot(s0, k, root, lo, a, doFree);
    if a < MAXVPN {
      assert doFree ==> Owned(s0, root, a);
      OwnedKept(s0, k, root, lo, a, doFree);
    }
    hide Good, Step, Entry, Unmaps, UnmapsOne, IsRoot, Present, Owned;
    ok := UnmapPage(m, root, a, doFree);
    if ok {
      UnmapMore(s0, k, m.S(), root, lo, a, doFree);
    }
  }

  // The loop of uvmunmap, in pages. `stop` is the first page it did not unmap.
  method UnmapRange(m: Memory, root: nat, lo: nat, hi: nat, doFree: bool) returns (ok: bool, ghost stop: nat)
    requires m.Inv() && IsRoot(m.loc, root) && lo <= hi
    requires doFree ==> AllOwned(m.S(), root, lo, hi)
    modifies m
    ensures m.Inv() && Unmaps(old(m.S()), m.S(), root, lo, stop, doFree)
    ensures ok ==> stop == hi && (lo < hi ==> hi <= MAXVPN)
    ensures !ok ==> lo <= stop < hi && Missing(old(m.S()), root, stop)
  {
    ghost var s := m.S();
    UnmapsNone(s, root, lo, doFree);
    hide Good, Step, Entry, Unmaps, IsRoot, Present, AllOwned;
    var a := lo;
    while a < hi
      invariant m.Inv() && lo <= a <= hi && Unmaps(s, m.S(), root, lo, a, doFree)
      invariant lo < a ==> a <= MAXVPN
    {
      ok := UnmapNext(m, root, a, doFree, s, lo, hi);
      if !ok {
        stop := a;
        return;
      }
      a := a + 1;
    }
    ok, stop := true, a;
  }

  // The pages are unmapped; their frames, if they are to be freed, and no others are
  // free; all other pages of all page tables translate as before.
  lemma UnmapsMean(s0: Snap, s: Snap, root: nat, lo: nat, hi: nat, top: nat, doFree: bool)
    requires Unmaps(s0, s, root, lo, hi, doFree) && hi <= top && (doFree ==> AllOwned(s0, root, lo, top))
    ensures forall v: nat | lo <= v < hi :: V in Entry(s0.pt, root, v).flags && Entry(s.pt, root, v) == Pte({}, 0)
    ensures forall r, v: nat | IsRoot(s0.loc, r) && v < VPNS && !(r == root && lo <= v < hi) ::
              Entry(s.pt, r, v) == Entry(s0.pt, r, v)
    ensures forall p | p in s.free ::
              p in s0.free || (doFree && p in s0.used && exists v: nat :: lo <= v < hi && s0.used[p] == Frame(root, v))
    ensures s0.free <= s.free && (!doFree ==> s.free == s0.free)
    ensures doFree ==> forall v: nat | lo <= v < hi :: Entry(s0.pt, root, v).ppn in s.free
  {
    hide Entry, Table0;
    forall p | p in s.free && p !in s0.free
      ensures doFree && p in s0.used && exists v: nat :: lo <= v < hi && s0.used[p] == Frame(root, v)
    {
      assert s0.used[p] == Frame(root, s0.used[p].vpn);
    }
    forall v: nat | doFree && lo <= v < hi
      ensures Entry(s0.pt, root, v).ppn in s.free
    {
      assert Owned(s0, root, v);
    }
  }

  // uvmunmap.
  method UvmUnmap(m: Memory, root: nat, va: nat, npages: nat, doFree: bool) returns (ok: bool, ghost stop: nat)
    requires m.Inv() && IsRoot(m.loc, root)
    requires doFree ==> AllOwned(m.S(), root, PageOf(va), PageOf(va) + npages)
    modifies m
    ensures m.Inv() && Unmaps(old(m.S()), m.S(), root, PageOf(va), stop, doFree)
    ensures forall v: nat | va / 4096 <= v < stop ::
              V in Entry(old(m.pt), root, v).flags && Entry(m.pt, root, v) == Pte({}, 0)
              && (doFree ==> Entry(old(m.pt), root, v).ppn in m.free)
    ensures !doFree ==> m.free == old(m.free)
    ensures forall r, v: nat | IsRoot(old(m.loc), r) && v < VPNS && !(r == root && va / 4096 <= v < stop) ::
              Entry(m.pt, r, v) == Entry(old(m.pt), r, v)
    ensures ok ==> Aligned(va) && stop == PageOf(va) + npages
    ensures !ok ==> if Aligned(va) then stop < PageOf(va) + npages && Missing(old(m.S()), root, stop)
                    else m.S() == old(m.S())
  {
    hide Good, Step, Entry, Unmaps, IsRoot, Present, Missing, AllOwned, Owned, Aligned;
    ghost var s := m.S();
    var lo := PageOf(va);
    if !Aligned(va) {
      UnmapsNone(s, root, lo, doFree);
      return false, lo;
    }
    ok, stop := UnmapRange(m, root, lo, lo + npages, doFree);
    UnmapsMean(s, m.S(), root, lo, stop, lo + npages, doFree);
  }
}
