/** vmcopypage: user translations copied into a kernel page table, with some
    flags cleared. */
module CopyPage {
  import opened Sv39
  import opened Vm
  import opened Uvm

  // The flags cleared include U, or the kernel could not use the page; V and R stay.
  predicate MaskOk(mask: set<Flag>) { U in mask && V !in mask && R !in mask }

  function Masked(e: Pte, mask: set<Flag>): Pte {
    Pte(e.flags - mask, e.ppn)
  }

  // The address the loop is at on its k-th turn.
  function At(start: nat, k: nat): nat { start + 4096 * k }

  lemma Turns(start: nat, sz: nat, k: nat)
    ensures PageOf(At(start, k)) == PageOf(start) + k
    ensures At(start, k) < start + sz <==> k < Pages(sz)
  {
  }

  // The pages the loop touches: one for each PGSIZE bytes begun.
  predicate Touched(start: nat, sz: nat, v: nat) {
    PageOf(start) <= v < PageOf(start) + Pages(sz)
  }

  // The pages with a byte in [start, start + sz).
  predicate Covered(start: nat, sz: nat, v: nat) {
    exists b: nat :: start <= b < start + sz && PageOf(b) == v
  }

  // Every page of the range is touched.
  ghost predicate CoversAll(start: nat, sz: nat) {
    forall v: nat | Covered(start, sz, v) :: Touched(start, sz, v)
  }

  predicate Aligns(start: nat, sz: nat) {
    var r, s := start % 4096, sz % 4096;
    r == 0 || (s > 0 && r + s <= 4096)
  }

  lemma CoveredPages(start: nat, sz: nat, v: nat)
    requires sz > 0
    ensures Covered(start, sz, v) <==> PageOf(start) <= v <= PageOf(start + sz - 1)
  {
    if PageOf(start) <= v <= PageOf(start + sz - 1) {
      var b := if v == PageOf(start) then start else 4096 * v;
      assert start <= b < start + sz && PageOf(b) == v;
    }
  }

  // The loop touches only pages of the range, and all of them exactly if start is
  // aligned or the last stretch does not cross a page boundary.
  lemma CoverIff(start: nat, sz: nat)
    requires sz > 0
    ensures forall v: nat | Touched(start, sz, v) :: Covered(start, sz, v)
    ensures CoversAll(start, sz) <==> Aligns(start, sz)
  {
    forall v: nat
      ensures Covered(start, sz, v) <==> PageOf(start) <= v <= PageOf(start + sz - 1)
    {
      CoveredPages(start, sz, v);
    }
    var last := PageOf(start + sz - 1);
    assert last == PageOf(start) + Pages(sz) - 1 || last == PageOf(start) + Pages(sz);
    assert Covered(start, sz, last);
    hide Covered;
    assert CoversAll(start, sz) <==> last < PageOf(start) + Pages(sz);
  }

  ghost predicate Readable(s: Snap, root: nat, v: nat) {
    Present(Entry(s.pt, root, v)) ==> R in Entry(s.pt, root, v).flags
  }

  ghost predicate AllReadable(s: Snap, root: nat, lo: nat, hi: nat) {
    forall v: nat | lo <= v < hi :: Readable(s, root, v)
  }

  // From s0 to s, pages lo to hi of the page table at k became masked copies of
  // those at u, and nothing else changed.
  ghost predicate Copies(s0: Snap, s: Snap, u: nat, k: nat, lo: nat, hi: nat, mask: set<Flag>) {
    && IsRoot(s0.loc, u) && IsRoot(s0.loc, k) && IsRoot(s.loc, u) && IsRoot(s.loc, k) && u != k
    && Step(s0, s, k, lo, hi) && s.used == s0.used
    && (lo < hi ==> hi <= MAXVPN && Table0(s.pt, k, hi - 1) != 0)
    && forall v: nat | lo <= v < hi :: Entry(s.pt, k, v) == Masked(Entry(s0.pt, u, v), mask)
  }

  lemma CopiesNone(s: Snap, u: nat, k: nat, lo: nat, mask: set<Flag>)
    requires IsRoot(s.loc, u) && IsRoot(s.loc, k) && u != k
    ensures Copies(s, s, u, k, lo, lo, mask)
  {
  }

  lemma CopiesMore(s0: Snap, s: Snap, s': Snap, u: nat, k: nat, lo: nat, a: nat, mask: set<Flag>)
    requires Copies(s0, s, u, k, lo, a, mask) && lo <= a < MAXVPN
    requires Step(s, s', k, a, a + 1) && s'.used == s.used
    requires Entry(s'.pt, k, a) == Masked(Entry(s.pt, u, a), mask) && Table0(s'.pt, k, a) != 0
    ensures Copies(s0, s', u, k, lo, a + 1, mask)
  {
    hide Entry, Table0, Masked;
    StepJoin(s0, s, s', k, lo, a, a, a + 1, lo, a + 1);
    forall v: nat | lo <= v < a
      ensures Entry(s'.pt, k, v) == Entry(s.pt, k, v)
    {
      StepSame(s, s', k, a, a + 1, v);
    }
  }

  lemma CopiesStop(s0: Snap, s: Snap, s': Snap, u: nat, k: nat, lo: nat, a: nat, mask: set<Flag>)
    requires Copies(s0, s, u, k, lo, a, mask) && Quiet(s, s', k)
    ensures Copies(s0, s', u, k, lo, a, mask)
  {
  }

  // The slot found for page v of one page table is still its slot after tables
  // were added to another.
  lemma SlotKept(s: Snap, s': Snap, u: nat, p: nat, k: nat, v: nat, mask: set<Flag>)
    requires Shape(s.pt, s.loc) && IsRoot(s.loc, u) && OnPath(s.pt, s.loc, u, p, 0, v) && v < MAXVPN
    requires Step(s, s', k, 0, 0)
    ensures Get(s'.pt, p, Px(0, v)) == Entry(s.pt, u, v)
  {
    PathEnds(s.pt, s.loc, u, p, v);
    assert Entry(s'.pt, u, v) == Entry(s.pt, u, v);
    assert Table0(s'.pt, u, v) == p;
    hide Shape, Px, Table0;
  }

  lemma MaskedLeaf(e: Pte, mask: set<Flag>)
    requires MaskOk(mask) && (Present(e) ==> R in e.flags)
    ensures Present(Masked(e, mask)) ==> Leaf(Masked(e, mask))
  {
  }

  // One turn of the loop copies one entry without the masked flags. False stands for a
  // panic.
  method CopyOne(m: Memory, u: nat, k: nat, v: nat, mask: set<Flag>) returns (ok: bool)
    requires m.Inv() && IsRoot(m.loc, u) && IsRoot(m.loc, k) && u != k && MaskOk(mask)
    requires v < MAXVPN ==> Readable(m.S(), u, v)
    modifies m
    ensures m.Inv() && (ok ==> v < MAXVPN && Step(old(m.S()), m.S(), k, v, v + 1) && m.used == old(m.used)
                               && Entry(m.pt, k, v) == Masked(Entry(old(m.pt), u, v), mask)
                               && Table0(m.pt, k, v) != 0)
    ensures !ok ==> Quiet(old(m.S()), m.S(), k) && (Missing(old(m.S()), u, v) || m.free == {})
    ensures ok || !Missing(old(m.S()), u, v) ==> Enough(ok, Lacks(old(m.S()), k, v), old(m.free), m.free)
  {
    hide Lacks, Good, Step, Entry, Table0, IsRoot, Present, Leaf, Readable;
    hide Missing, Quiet, Masked, OnPath, Px, Get, MaskOk, PageOf, Addr;
    ghost var s := m.S();
    var pte := m.Walk(u, Addr(v), false);
    WalkFailed(s, m.pages, u, k, v, pte);
    if pte.Panicked? {
      return false;
    }
    var kpte := m.Walk(k, Addr(v), true);
    QuietStep(s, m.S(), k);
    SlotLacks(s, k, v, kpte);
    if pte.NoTable? || !kpte.At? {
      return false;
    }
    SourceSlot(s, m.S(), m.pages, u, k, pte, v, mask);
    assert PageOf(Addr(v)) == v;
    StepRoot(s, m.S(), k);
    var e := Masked(Get(m.pt, pte.table, pte.index), mask);
    ghost var t := m.S();
    SlotTable(t, m.pages, k, kpte.table, v);
    m.WriteAt(k, kpte.table, v, e);
    TableStays(t, m.S(), k, v);
    StepJoin(s, t, m.S(), k, 0, 0, v, v + 1, v, v + 1);
    ok := true;
  }

  lemma SlotLacks(s: Snap, k: nat, v: nat, r: Slot)
    requires r.Panicked? <==> Addr(v) >= MAXVA
    requires r.NoTable? ==> Table0(s.pt, k, PageOf(Addr(v))) == 0
    ensures Lacks(s, k, PageOf(Addr(v))) == Lacks(s, k, v) && (r.NoTable? ==> Lacks(s, k, v) == 2)
  {
  }

  lemma SlotTable(s: Snap, pages: set<nat>, k: nat, p: nat, v: nat)
    requires Good(s, pages) && OnPath(s.pt, s.loc, k, p, 0, PageOf(Addr(v))) && v < MAXVPN
    ensures Table0(s.pt, k, v) != 0
  {
    PathEnds(s.pt, s.loc, k, p, v);
  }

  lemma TableStays(s: Snap, s': Snap, k: nat, v: nat)
    requires Step(s, s', k, v, v + 1) && IsRoot(s.loc, k) && v < MAXVPN && Table0(s.pt, k, v) != 0
    ensures Table0(s'.pt, k, v) != 0
  {
  }

  lemma WalkFailed(s: Snap, pages: set<nat>, u: nat, k: nat, v: nat, r: Slot)
    requires Good(s, pages)
    requires r.Panicked? <==> Addr(v) >= MAXVA
    requires r.NoTable? ==> Table0(s.pt, u, PageOf(Addr(v))) == 0
    ensures r.Panicked? || r.NoTable? ==> Missing(s, u, v)
    ensures !r.Panicked? ==> v < MAXVPN
    ensures Quiet(s, s, k)
  {
  }

  lemma QuietStep(s: Snap, s': Snap, k: nat)
    requires Step(s, s', k, 0, 0) && s'.used == s.used
    ensures Quiet(s, s', k)
  {
  }

  lemma StepRoot(s: Snap, s': Snap, k: nat)
    requires Step(s, s', k, 0, 0) && IsRoot(s.loc, k)
    ensures IsRoot(s'.loc, k)
  {
  }

  lemma SourceSlot(s: Snap, s': Snap, pages: set<nat>, u: nat, k: nat, r: Slot, v: nat, mask: set<Flag>)
    requires Good(s, pages) && IsRoot(s.loc, u) && Step(s, s', k, 0, 0) && v < MAXVPN
    requires r.At? && r.index == Px(0, PageOf(Addr(v))) && OnPath(s.pt, s.loc, u, r.table, 0, PageOf(Addr(v)))
    requires MaskOk(mask) && Readable(s, u, v)
    ensures Get(s'.pt, r.table, r.index) == Entry(s.pt, u, v)
    ensures var e := Masked(Entry(s.pt, u, v), mask); Present(e) ==> Leaf(e)
  {
    SlotKept(s, s', u, r.table, k, v, mask);
    MaskedLeaf(Entry(s.pt, u, v), mask);
    hide Shape, Step, OnPath, Px, Entry, Leaf, Present, Masked;
  }

  // One turn of the loop, as part of a copy that started in s0.
  method CopyNext(m: Memory, u: nat, k: nat, a: nat, mask: set<Flag>, ghost s0: Snap, ghost lo: nat, ghost hi: nat)
    returns (ok: bool)
    requires m.Inv() && Copies(s0, m.S(), u, k, lo, a, mask) && lo <= a < hi && MaskOk(mask)
    requires AllReadable(s0, u, lo, hi)
    modifies m
    ensures m.Inv() && Copies(s0, m.S(), u, k, lo, if ok then a + 1 else a, mask)
    ensures !ok ==> Missing(s0, u, a) || m.free == {}
    ensures ok || !Missing(s0, u, a) ==>
              Enough(ok, RangeLacks(s0, k, lo, a + 1) - RangeLacks(s0, k, lo, a), old(m.free), m.free)
  {
    hide RangeLacks, Lacks, Table0, Good, Step, Entry, IsRoot, Present, Readable;
    hide Missing, Quiet, Masked, MaskOk, Copies;
    ghost var s := m.S();
    assert Readable(s0, u, a);
    ReadStill(s0, s, u, k, lo, a, mask);
    CopyLacks(s0, s, u, k, lo, a, mask);
    ok := CopyOne(m, u, k, a, mask);
    if ok {
      CopiesMore(s0, s, m.S(), u, k, lo, a, mask);
    } else {
      CopiesStop(s0, s, m.S(), u, k, lo, a, mask);
    }
  }

  lemma ReadStill(s0: Snap, s: Snap, u: nat, k: nat, lo: nat, a: nat, mask: set<Flag>)
    requires Copies(s0, s, u, k, lo, a, mask) && Readable(s0, u, a)
    ensures IsRoot(s.loc, u) && IsRoot(s.loc, k) && u != k
    ensures a < MAXVPN ==> Readable(s, u, a)
    ensures Missing(s, u, a) ==> Missing(s0, u, a)
  {
  }

  lemma CopyLacks(s0: Snap, s: Snap, u: nat, k: nat, lo: nat, a: nat, mask: set<Flag>)
    requires Copies(s0, s, u, k, lo, a, mask) && lo <= a
    ensures Lacks(s, k, a) + RangeLacks(s0, k, lo, a) <= RangeLacks(s0, k, lo, a + 1)
  {
    LacksNext(s0, s, k, lo, a);
    hide Lacks, RangeLacks, Entry, Table0;
  }

  // A copied page leads where the user's leads, with the user's flags but for the
  // masked ones; no other page of any page table leads elsewhere than before.
  lemma CopiesMean(s0: Snap, s: Snap, u: nat, k: nat, lo: nat, hi: nat, mask: set<Flag>)
    requires Copies(s0, s, u, k, lo, hi, mask)
    ensures forall v: nat | lo <= v < hi ::
              var ue, ke := Entry(s0.pt, u, v), Entry(s.pt, k, v);
              ke.ppn == ue.ppn && forall f: Flag :: f in ke.flags <==> f in ue.flags && f !in mask
    ensures forall r, v: nat | IsRoot(s0.loc, r) && v < VPNS && !(r == k && lo <= v < hi) ::
              Entry(s.pt, r, v) == Entry(s0.pt, r, v)
  {
    hide Entry, Table0;
  }

  // vmcopypage; false stands for a panic. `stop` is the first page not copied.
  method VmCopyPage(m: Memory, u: nat, k: nat, start: nat, sz: nat, mask: set<Flag>) returns (ok: bool, ghost stop: nat)
    requires m.Inv() && IsRoot(m.loc, u) && IsRoot(m.loc, k) && u != k && MaskOk(mask)
    requires AllReadable(m.S(), u, PageOf(start), PageOf(start) + Pages(sz))
    modifies m
    ensures m.Inv() && Copies(old(m.S()), m.S(), u, k, PageOf(start), stop, mask)
    ensures forall v: nat | PageOf(start) <= v < stop ::
              var ue, ke := Entry(old(m.pt), u, v), Entry(m.pt, k, v);
              ke.ppn == ue.ppn && forall f: Flag :: f in ke.flags <==> f in ue.flags && f !in mask
    ensures forall r, v: nat | IsRoot(old(m.loc), r) && v < VPNS && !(r == k && PageOf(start) <= v < stop) ::
              Entry(m.pt, r, v) == Entry(old(m.pt), r, v)
    ensures ok ==> stop == PageOf(start) + Pages(sz)
    ensures !ok ==> Touched(start, sz, stop) && (Missing(old(m.S()), u, stop) || m.free == {})
    ensures ok || !Missing(old(m.S()), u, stop) ==>
              Enough(ok, RangeLacks(old(m.S()), k, PageOf(start), PageOf(start) + Pages(sz)), old(m.free), m.free)
  {
    hide RangeLacks, Good, Step, Entry, IsRoot, Missing, MaskOk, Copies, AllReadable, PageOf, Pages, At;
    ghost var s := m.S();
    ghost var lo, hi := PageOf(start), PageOf(start) + Pages(sz);
    CopiesNone(s, u, k, lo, mask);
    var i := start;
    ghost var n, a := 0, lo;
    FirstTurn(start);
    RangeLacksNone(s, k, lo);
    while i < start + sz
      invariant m.Inv() && i == At(start, n) && a == lo + n && lo <= a <= hi
      invariant Copies(s, m.S(), u, k, lo, a, mask)
      invariant |s.free| <= |m.free| + RangeLacks(s, k, lo, a)
      decreases start + sz - i
    {
      Turns(start, sz, n);
      NextTurn(start, n);
      RangeLacksMore(s, k, lo, a + 1, hi);
      ok := CopyNext(m, u, k, PageOf(i), mask, s, lo, hi);
      if !ok {
        stop := a;
        CopiesMean(s, m.S(), u, k, lo, a, mask);
        return;
      }
      i, n, a := i + PGSIZE, n + 1, a + 1;
    }
    Turns(start, sz, n);
    CopiesMean(s, m.S(), u, k, lo, a, mask);
    ok, stop := true, a;
  }

  lemma FirstTurn(start: nat)
    ensures At(start, 0) == start
  {
  }

  lemma NextTurn(start: nat, k: nat)
    ensures At(start, k) + 4096 == At(start, k + 1)
  {
  }
}
