/** The user page table of a process: created with the trampoline pages, grown by
    the operations on user memory, and freed. */
module UserTables {
  import opened Sv39
  import opened Vm
  import opened Uvm
  import opened UserMem
  import opened Teardown
  import opened Isolation
  import opened Kvm

  // The trampoline and the trapframe are mapped at the top, for the supervisor only.
  ghost predicate Tops(s: Snap, root: nat, tf: nat, tramp: nat) {
    && Entry(s.pt, root, TOP) == Pte({V, R, W}, tf) && Entry(s.pt, root, TOP + 1) == Pte({V, R, X}, tramp)
    && forall v: nat | TOP + 2 <= v < VPNS :: Entry(s.pt, root, v) == ZERO_PTE
  }

  // The frames behind the page table at root are the n of its image and, if the
  // process's trapframe is accounted to this page table, that one.
  ghost predicate Backing(s: Snap, root: nat, n: nat, tf: nat, own: bool) {
    && (own ==> tf in s.used && s.used[tf] == Frame(root, TOP))
    && (forall p | p in s.used && Of(s.used[p], {root}) ::
          s.used[p].vpn < n || (own && p == tf && s.used[p] == Frame(root, TOP)))
  }

  ghost predicate UserTable(s: Snap, root: nat, n: nat, tf: nat, tramp: nat, own: bool) {
    Image(s, root, n) && Tops(s, root, tf, tramp) && Backing(s, root, n, tf, own)
  }

  /* Creating it. */

  ghost predicate TopStage(s: Snap, root: nat, tf: nat, tramp: nat, j: nat) {
    && IsRoot(s.loc, root) && NoFrames(s, root)
    && forall v: nat | v < VPNS ::
         Entry(s.pt, root, v) == if v == TOP + 1 && j >= 1 then Pte({V, R, X}, tramp)
                                 else if v == TOP && j >= 2 then Pte({V, R, W}, tf)
                                 else ZERO_PTE
  }

  lemma StageBlank(s: Snap, root: nat, tf: nat, tramp: nat)
    ensures Blank(s, root) <==> TopStage(s, root, tf, tramp, 0)
  {
  }

  lemma StageNext(s: Snap, s': Snap, root: nat, tf: nat, tramp: nat, j: nat)
    requires TopStage(s, root, tf, tramp, j) && j < 2 && s'.used == s.used
    requires Step(s, s', root, TOP + 1 - j, TOP + 2 - j)
    requires Entry(s'.pt, root, TOP + 1 - j) == if j == 0 then Pte({V, R, X}, tramp) else Pte({V, R, W}, tf)
    ensures TopStage(s', root, tf, tramp, j + 1) && Apart(s, s', {root})
  {
  }

  lemma StageQuiet(s: Snap, s': Snap, root: nat, tf: nat, tramp: nat, j: nat)
    requires TopStage(s, root, tf, tramp, j) && Quiet(s, s', root)
    ensures TopStage(s', root, tf, tramp, j) && Apart(s, s', {root})
  {
  }

  lemma StageBack(s: Snap, s': Snap, root: nat, tf: nat, tramp: nat)
    requires TopStage(s, root, tf, tramp, 1) && UnmapsOne(s, s', root, TOP + 1, false)
    ensures TopStage(s', root, tf, tramp, 0) && Apart(s, s', {root})
  {
  }

  lemma StageDone(s: Snap, root: nat, tf: nat, tramp: nat)
    requires TopStage(s, root, tf, tramp, 2)
    ensures UserTable(s, root, 0, tf, tramp, false)
  {
  }

  // Every table is in the tree of a root.
  lemma FreshGone(s: Snap, pages: set<nat>, root: nat)
    requires Good(s, pages) && Labelled(s) && root !in s.loc
    ensures Gone(s, {root})
  {
    forall q | q in s.loc
      ensures s.loc[q].root != root
    {
      assert q in s.pt.Keys;
      ShapeLevels(s.pt, s.loc);
      var a := Ancestor(s.pt, s.loc, q, 2);
      assert PageOk(s.pt, s.loc, a);
    }
    hide Shape;
  }

  lemma ApartNothing(s: Snap, s': Snap, roots: set<nat>)
    requires Apart(s, s', roots) && Gone(s, roots) && Gone(s', roots)
    ensures Apart(s, s', {})
  {
  }

  ghost predicate NoLeaves(s: Snap, root: nat) {
    forall v: nat | v < VPNS :: !Present(Entry(s.pt, root, v))
  }

  // freewalk panics if it meets a leaf; when there is none it does what
  // proc_freewalk does.
  method Freewalk(m: Memory, root: nat)
    requires m.Inv() && Labelled(m.S()) && IsRoot(m.loc, root) && NoLeaves(m.S(), root) && NoFrames(m.S(), root)
    modifies m
    ensures m.Inv() && Labelled(m.S()) && Gone(m.S(), {root}) && Apart(old(m.S()), m.S(), {root})
    ensures old(m.free) <= m.free
  {
    hide Good, Labelled, IsRoot, NoLeaves, NoFrames, Apart, Gone, Minus, Tree, OthersKept;
    ghost var s := m.S();
    FreeTree(m, root);
    MinusFree(s, Tree(s.loc, root));
    ApartTreeGone(s, m.S(), root);
    FreedGone(s, m.S(), root);
  }

  lemma MinusFree(s: Snap, x: set<nat>)
    ensures s.free <= Minus(s, x).free
  {
  }

  lemma FreedGone(s: Snap, s': Snap, root: nat)
    requires s' == Minus(s, Tree(s.loc, root)) && NoFrames(s, root) && Labelled(s) && Apart(s, s', {root})
    ensures Gone(s', {root}) && Labelled(s')
  {
  }

  // uvmfree of a page table that maps nothing, made since s0.
  method Discard(m: Memory, root: nat, ghost s0: Snap)
    requires m.Inv() && Labelled(m.S()) && Blank(m.S(), root) && Apart(s0, m.S(), {root}) && Gone(s0, {root})
    modifies m
    ensures m.Inv() && Labelled(m.S()) && Apart(s0, m.S(), {})
  {
    hide Good, Labelled, IsRoot, NoLeaves, NoFrames, Apart, Gone, Blank;
    ghost var s := m.S();
    BlankLeaves(s, root);
    Freewalk(m, root);
    ApartTrans(s0, s, m.S(), {root});
    ApartNothing(s0, m.S(), {root});
  }

  lemma BlankLeaves(s: Snap, root: nat)
    requires Blank(s, root)
    ensures IsRoot(s.loc, root) && NoLeaves(s, root) && NoFrames(s, root)
  {
  }

  // What proc_pagetable has made since s0.
  ghost predicate Making(s0: Snap, s: Snap, root: nat, tf: nat, tramp: nat, j: nat) {
    TopStage(s, root, tf, tramp, j) && Apart(s0, s, {root}) && Labelled(s) && Gone(s0, {root})
  }

  lemma MakingOn(s0: Snap, s: Snap, s': Snap, root: nat, tf: nat, tramp: nat, j: nat, j': nat)
    requires Making(s0, s, root, tf, tramp, j) && Apart(s, s', {root}) && TopStage(s', root, tf, tramp, j')
    ensures Making(s0, s', root, tf, tramp, j')
  {
  }

  // Maps the trampoline (j = 0) or the trapframe (j = 1).
  method MapTop(m: Memory, root: nat, tf: nat, tramp: nat, j: nat, ghost s0: Snap) returns (ok: bool)
    requires m.Inv() && Making(s0, m.S(), root, tf, tramp, j) && j < 2
    modifies m
    ensures m.Inv() && Making(s0, m.S(), root, tf, tramp, if ok then j + 1 else j)
    ensures Enough(ok, 2, old(m.free), m.free)
  {
    hide Good, Making, TopStage, Step, Entry, Quiet, IsRoot, Present;
    ghost var s := m.S();
    MakingHas(s0, s, root, tf, tramp, j);
    var r := MapPage(m, root, TOP + 1 - j, if j == 0 then tramp else tf, if j == 0 then {R, X} else {R, W});
    assert {R, X} + {V} == {V, R, X} && {R, W} + {V} == {V, R, W};
    if r.Mapped? {
      StageNext(s, m.S(), root, tf, tramp, j);
      MakingOn(s0, s, m.S(), root, tf, tramp, j, j + 1);
    } else {
      assert Quiet(s, m.S(), root) by { QuietIs(s, m.S(), root); }
      StageQuiet(s, m.S(), root, tf, tramp, j);
      MakingOn(s0, s, m.S(), root, tf, tramp, j, j);
    }
    ok := r.Mapped?;
  }

  lemma MakingHas(s0: Snap, s: Snap, root: nat, tf: nat, tramp: nat, j: nat)
    requires Making(s0, s, root, tf, tramp, j)
    ensures IsRoot(s.loc, root) && TopStage(s, root, tf, tramp, j)
    ensures j < 2 ==> !Present(Entry(s.pt, root, TOP + 1 - j))
  {
  }

  lemma QuietIs(s: Snap, s': Snap, root: nat)
    requires Step(s, s', root, 0, 0) && s'.used == s.used
    ensures Quiet(s, s', root)
  {
  }

  // The user page table page by page.
  lemma UserMeans(s: Snap, root: nat, n: nat, tf: nat, tramp: nat, own: bool)
    requires UserTable(s, root, n, tf, tramp, own)
    ensures n <= MAXVPN - 2
    ensures forall v: nat | n <= v < VPNS ::
              Entry(s.pt, root, v)
              == if v == MAXVPN - 1 then Pte({V, R, X}, tramp) else if v == MAXVPN - 2 then Pte({V, R, W}, tf)
                 else ZERO_PTE
    ensures forall v: nat | v < n ::
              var e := Entry(s.pt, root, v);
              V in e.flags && R in e.flags && e.ppn in s.used && s.used[e.ppn] == Frame(root, v)
  {
    hide Entry;
  }

  // proc_pagetable; 0 stands for failure, which leaves nothing behind.
  method ProcPagetable(m: Memory, tf: nat, tramp: nat) returns (root: nat)
    requires m.Inv() && Labelled(m.S())
    modifies m
    ensures m.Inv() && Labelled(m.S())
    ensures root != 0 ==> UserTable(m.S(), root, 0, tf, tramp, false) && root !in old(m.loc)
    ensures root != 0 ==> Apart(old(m.S()), m.S(), {root})
    ensures root != 0 ==>
              forall v: nat | v < VPNS ::
                Entry(m.pt, root, v)
                == if v == MAXVPN - 1 then Pte({V, R, X}, tramp) else if v == MAXVPN - 2 then Pte({V, R, W}, tf)
                   else ZERO_PTE
    ensures root == 0 ==> Apart(old(m.S()), m.S(), {})
    ensures Enough(root != 0, 5, old(m.free), m.free)
  {
    hide Good, Labelled, Apart, Making, Blank, TopStage, UserTable, UnmapsOne, Missing, Gone, Owned, IsRoot, Entry;
    ghost var s := m.S();
    ApartRefl(s, {});
    var p := UvmCreate(m);
    if p == 0 {
      return 0;
    }
    FreshGone(s, m.pages, p);
    StageBlank(m.S(), p, tf, tramp);
    MakingStart(s, m.S(), p, tf, tramp);
    var ok := MapTop(m, p, tf, tramp, 0, s);
    if !ok {
      MakingEnd(s, m.S(), p, tf, tramp, 0);
      Discard(m, p, s);
      return 0;
    }
    ok := MapTop(m, p, tf, tramp, 1, s);
    if !ok {
      ghost var k := m.S();
      MakingEnd(s, k, p, tf, tramp, 1);
      ok := UnmapPage(m, p, TOP + 1, false);
      assert ok;
      StageBack(k, m.S(), p, tf, tramp);
      MakingOn(s, k, m.S(), p, tf, tramp, 1, 0);
      MakingEnd(s, m.S(), p, tf, tramp, 0);
      Discard(m, p, s);
      return 0;
    }
    MakingEnd(s, m.S(), p, tf, tramp, 2);
    StageDone(m.S(), p, tf, tramp);
    UserMeans(m.S(), p, 0, tf, tramp, false);
    root := p;
  }

  lemma MakingStart(s0: Snap, s: Snap, root: nat, tf: nat, tramp: nat)
    requires TopStage(s, root, tf, tramp, 0) && Apart(s0, s, {root}) && Labelled(s) && Gone(s0, {root})
    ensures Making(s0, s, root, tf, tramp, 0)
  {
  }

  lemma MakingEnd(s0: Snap, s: Snap, root: nat, tf: nat, tramp: nat, j: nat)
    requires Making(s0, s, root, tf, tramp, j)
    ensures TopStage(s, root, tf, tramp, j) && Apart(s0, s, {root}) && Labelled(s) && Gone(s0, {root})
    ensures j == 0 ==> Blank(s, root)
    ensures IsRoot(s.loc, root)
    ensures j == 1 ==> !Missing(s, root, TOP + 1)
  {
  }

  /* Freeing it. */

  // proc_freepagetable has unmapped the first j of the two top pages since s0.
  ghost predicate Leaving(s0: Snap, s: Snap, root: nat, n: nat, j: nat) {
    && Image(s, root, n) && Apart(s0, s, {root}) && Labelled(s)
    && (forall p | p in s.used && Of(s.used[p], {root}) :: s.used[p].vpn < n)
    && (if j < 1 then Present(Entry(s.pt, root, TOP + 1)) else Entry(s.pt, root, TOP + 1) == ZERO_PTE)
    && (if j < 2 then Present(Entry(s.pt, root, TOP)) else Entry(s.pt, root, TOP) == ZERO_PTE)
    && (forall v: nat | TOP + 2 <= v < VPNS :: Entry(s.pt, root, v) == ZERO_PTE)
  }

  lemma LeavingStart(s: Snap, root: nat, n: nat, tf: nat, tramp: nat)
    requires UserTable(s, root, n, tf, tramp, false) && Labelled(s)
    ensures Leaving(s, s, root, n, 0)
  {
  }

  lemma LeavingNext(s0: Snap, s: Snap, s': Snap, root: nat, n: nat, j: nat)
    requires Leaving(s0, s, root, n, j) && j < 2 && UnmapsOne(s, s', root, TOP + 1 - j, false)
    ensures Leaving(s0, s', root, n, j + 1)
  {
    var a := TOP + 1 - j;
    ApartSameUsed(s, s', root, a, a + 1);
    ApartTrans(s0, s, s', {root});
    LabelledApart(s, s', {root});
    hide Apart, Labelled, Entry, Table0, Present;
    forall v: nat | v < VPNS && v != a
      ensures Entry(s'.pt, root, v) == Entry(s.pt, root, v)
    {
      StepSame(s, s', root, a, a + 1, v);
    }
    hide Step;
    assert Image(s', root, n);
  }

  lemma LeavingHas(s0: Snap, s: Snap, root: nat, n: nat, j: nat)
    requires Leaving(s0, s, root, n, j)
    ensures IsRoot(s.loc, root) && (j < 2 ==> !Missing(s, root, TOP + 1 - j))
    ensures n <= TOP && Backed(s, root, 0, n)
  {
  }

  // With its image unmapped too, the page table maps nothing.
  lemma LeavingDone(s0: Snap, s: Snap, s': Snap, root: nat, n: nat)
    requires Leaving(s0, s, root, n, 2) && Unmaps(s, s', root, 0, n, true)
    ensures IsRoot(s'.loc, root) && NoLeaves(s', root) && NoFrames(s', root) && Labelled(s') && Apart(s0, s', {root})
  {
    ApartUnmaps(s, s', root, 0, n, true);
    ApartTrans(s0, s, s', {root});
    assert !Present(ZERO_PTE);
    hide Apart, Entry, Table0, Present;
    forall v: nat | v < VPNS
      ensures Entry(s'.pt, root, v) == ZERO_PTE
    {
      if v >= n {
        StepSame(s, s', root, 0, n, v);
      }
    }
    assert NoFrames(s', root) by {
      forall p | p in s'.used
        ensures !Of(s'.used[p], {root})
      {
        assert p !in Frames(s.used, root, 0, n);
      }
    }
    LabelledApart(s, s', {root});
  }

  lemma OneFree(s: Snap, s': Snap, root: nat, a: nat)
    requires UnmapsOne(s, s', root, a, false)
    ensures s'.free == s.free
  {
  }

  lemma UnmapsFree(s: Snap, s': Snap, root: nat, lo: nat, hi: nat)
    requires Unmaps(s, s', root, lo, hi, true)
    ensures s.free <= s'.free
  {
  }

  // proc_freepagetable. The trapframe is no longer accounted to this page table.
  method ProcFreepagetable(m: Memory, root: nat, sz: nat, ghost tf: nat, ghost tramp: nat)
    requires m.Inv() && Labelled(m.S()) && UserTable(m.S(), root, Pages(sz), tf, tramp, false)
    modifies m
    ensures m.Inv() && Labelled(m.S()) && Gone(m.S(), {root}) && Apart(old(m.S()), m.S(), {root})
    ensures old(m.free) <= m.free
  {
    hide Good, Labelled, Apart, Leaving, UserTable, UnmapsOne, Missing;
    hide Gone, Owned, IsRoot, Backed, NoLeaves, NoFrames, Unmaps, Pages;
    ghost var s := m.S();
    ghost var n := Pages(sz);
    LeavingStart(s, root, n, tf, tramp);
    LeavingHas(s, s, root, n, 0);
    var ok := UnmapPage(m, root, TOP + 1, false);
    assert ok;
    LeavingNext(s, s, m.S(), root, n, 0);
    OneFree(s, m.S(), root, TOP + 1);
    ghost var k := m.S();
    LeavingHas(s, k, root, n, 1);
    ok := UnmapPage(m, root, TOP, false);
    assert ok;
    LeavingNext(s, k, m.S(), root, n, 1);
    OneFree(k, m.S(), root, TOP);
    LeavingHas(s, m.S(), root, n, 2);
    // uvmfree
    k := m.S();
    DeallocRange(m, root, 0, Pages(sz));
    LeavingDone(s, k, m.S(), root, n);
    UnmapsFree(k, m.S(), root, 0, n);
    k := m.S();
    Freewalk(m, root);
    ApartTrans(s, k, m.S(), {root});
  }
}
