/** Processes and the operations that keep their kernel page tables in step with
    their user page tables. */
module Processes {
  import opened Sv39
  import opened Vm
  import opened Uvm
  import opened UserMem
  import opened CopyPage
  import opened Teardown
  import opened Isolation
  import opened Kvm
  import opened UserTables
  import opened Mirror

  datatype State = UNUSED | SLEEPING | RUNNABLE | RUNNING | ZOMBIE
  datatype Proc = Proc(state: State, pagetable: nat, kpagetable: nat, sz: nat, trapframe: nat)
  const NOPROC := Proc(UNUSED, 0, 0, 0, 0)

  // What is fixed at boot: the address space, the flags vmcopypage clears, the
  // kernel stacks, the kernel's own page table and the pages it holds.
  datatype Config = Config(l: Layout, mask: set<Flag>, kstacks: seq<nat>, kroot: nat, base: set<nat>)

  predicate ConfigOk(c: Config) {
    LayoutOk(c.l, |c.kstacks|) && MaskOk(c.mask)
  }

  // The page of the PLIC; user memory ends below it.
  function Lim(c: Config): nat { PageOf(c.l.plic) }

  function Regions(c: Config, i: nat): seq<Region>
    requires ConfigOk(c) && i < |c.kstacks|
  {
    KernelRegions(c.l) + [StackRegion(i, c.kstacks[i])]
  }

  // Process i has an image of Pages(sz) pages; its kernel page table mirrors those
  // of them that are in mp, and maps nothing else below the PLIC.
  ghost predicate ProcOk(c: Config, s: Snap, i: nat, p: Proc, mp: set<nat>)
    requires ConfigOk(c) && i < |c.kstacks|
  {
    && p.pagetable != p.kpagetable && p.pagetable != 0 && p.kpagetable != 0
    && Pages(p.sz) <= Lim(c) && mp <= Range(0, Pages(p.sz))
    && UserTable(s, p.pagetable, Pages(p.sz), p.trapframe, PageOf(c.l.trampoline), true)
    && KernelTable(s, p.kpagetable, Lim(c), Regions(c, i), Copied(s, p.pagetable, mp, c.mask))
  }

  datatype Outcome = Done | Failed | Panics

  /* allocproc */

  // After kalloc of the trapframe, since s.
  ghost function WithHeld(s: Snap, tf: nat): Snap {
    s.(free := s.free - {tf}, used := s.used[tf := Held])
  }

  lemma HeldFacts(s: Snap, tf: nat)
    requires Labelled(s) && tf !in s.used
    ensures Labelled(WithHeld(s, tf))
  {
  }

  // Giving the trapframe back undoes the allocation.
  lemma HeldBack(s: Snap, k: Snap, tf: nat)
    requires tf !in s.used && Labelled(s) && Apart(WithHeld(s, tf), k, {})
    ensures tf in k.used
    ensures var s' := k.(free := k.free + {tf}, used := k.used - {tf});
            Apart(s, s', {}) && (Labelled(k) ==> Labelled(s'))
  {
  }

  lemma AllocApart(s: Snap, k: Snap, tf: nat, u: nat, kt: nat)
    requires tf !in s.used && Apart(WithHeld(s, tf), k, {u, kt})
    ensures tf in k.used && k.used[tf] == Held
    ensures Apart(s, k.(used := k.used[tf := Frame(u, TOP)]), {u, kt})
  {
  }

  lemma UserRoot(s: Snap, u: nat, n: nat, tf: nat, tramp: nat, own: bool)
    requires UserTable(s, u, n, tf, tramp, own)
    ensures IsRoot(s.loc, u) && n <= TOP
  {
  }

  lemma TwoStages(t: Snap, k: Snap, s: Snap, u: nat, kt: nat)
    requires Apart(t, k, {u}) && Apart(k, s, {kt})
    ensures Apart(t, s, {u, kt})
  {
  }

  lemma RegionsAbove(c: Config, i: nat)
    requires ConfigOk(c) && i < |c.kstacks|
    ensures forall j | 0 <= j < |Regions(c, i)| :: Lim(c) <= PageOf(Regions(c, i)[j].va)
    ensures RegionOk(StackRegion(i, c.kstacks[i])) && Lim(c) <= TOP
    ensures forall j | 0 <= j < |KernelRegions(c.l)| :: Separate(KernelRegions(c.l)[j], StackRegion(i, c.kstacks[i]))
  {
    forall j: nat | j < 6
      ensures KernelRegions(c.l)[j] == KernelRegion(c.l, j)
      ensures Lim(c) <= PageOf(KernelRegion(c.l, j).va)
      ensures Separate(KernelRegion(c.l, j), StackRegion(i, c.kstacks[i]))
    {
      KernelRegionsFit(c.l, |c.kstacks|, j);
      StackFits(c.l, |c.kstacks|, i, c.kstacks[i], j);
    }
    StackFits(c.l, |c.kstacks|, i, c.kstacks[i], 0);
    hide Separate, KernelRegion, RegionOk;
  }

  // Besides what every kernel page table maps, that of process i has i's own kernel
  // stack, two pages further down for each slot, with nothing below it.
  lemma RegionsMean(c: Config, i: nat, v: nat)
    requires ConfigOk(c) && i < |c.kstacks|
    ensures Fixed(Regions(c, i), v)
         == if v == MAXVPN - 1 - 2 * (i + 1) then Pte({V, R, W}, PageOf(c.kstacks[i])) else KernelPte(c.l, v)
    ensures v == MAXVPN - 2 - 2 * (i + 1) ==> KernelPte(c.l, v) == ZERO_PTE
    ensures Kstack(i) == 4096 * (MAXVPN - 1 - 2 * (i + 1)) && c.l.physstop / 4096 <= MAXVPN - 2 - 2 * (i + 1)
  {
    StackAt(c, i, v);
    RegionsMap(c.l, |c.kstacks|, v);
    assert Regions(c, i)[..|Regions(c, i)| - 1] == KernelRegions(c.l);
    hide KernelRegions, KernelPte, ConfigOk, In, StackRegion;
  }

  lemma StackAt(c: Config, i: nat, v: nat)
    requires ConfigOk(c) && i < |c.kstacks|
    ensures Kstack(i) == 4096 * (MAXVPN - 1 - 2 * (i + 1)) && c.l.physstop / 4096 <= MAXVPN - 2 - 2 * (i + 1)
    ensures In(StackRegion(i, c.kstacks[i]), v) <==> v == MAXVPN - 1 - 2 * (i + 1)
    ensures v == MAXVPN - 2 - 2 * (i + 1) ==> KernelPte(c.l, v) == ZERO_PTE
  {
  }

  lemma BuildingHas(s0: Snap, s: Snap, kt: nat, rs: seq<Region>)
    requires Building(s0, s, kt, rs)
    ensures Shows(s, kt, rs) && NoFrames(s, kt) && Labelled(s) && Apart(s0, s, {kt}) && kt !in s0.loc && kt != 0
  {
  }

  lemma ShowsClaimed(s: Snap, kt: nat, rs: seq<Region>, tf: nat, u: nat)
    requires Shows(s, kt, rs) && NoFrames(s, kt) && Labelled(s) && u != kt && IsRoot(s.loc, u)
    ensures var s' := s.(used := s.used[tf := Frame(u, TOP)]);
            Shows(s', kt, rs) && NoFrames(s', kt) && Labelled(s')
  {
  }

  // A new process, with nothing mirrored yet.
  lemma AllocEnds(c: Config, s: Snap, k: Snap, t: Snap, i: nat, tf: nat, u: nat, kt: nat)
    requires ConfigOk(c) && i < |c.kstacks| && tf !in s.used
    requires UserTable(k, u, 0, tf, PageOf(c.l.trampoline), false) && Apart(WithHeld(s, tf), k, {u})
    requires Building(k, t, kt, Regions(c, i)) && u != 0
    ensures var s' := t.(used := t.used[tf := Frame(u, TOP)]);
            && tf in t.used && ProcOk(c, s', i, Proc(UNUSED, u, kt, 0, tf), {}) && Labelled(s')
            && Apart(s, s', {u, kt})
  {
    hide ConfigOk, UserTable, Apart, Building, Shows, NoFrames, Labelled, Regions, KernelTable, PageOf, UserSame;
    var tramp := PageOf(c.l.trampoline);
    BuildingHas(k, t, kt, Regions(c, i));
    UserRoot(k, u, 0, tf, tramp, false);
    ApartSame(k, t, {kt}, u);
    UserKept(k, t, u, 0, tf, tramp, false);
    UserRoot(t, u, 0, tf, tramp, false);
    TwoStages(WithHeld(s, tf), k, t, u, kt);
    AllocApart(s, t, tf, u, kt);
    var s' := t.(used := t.used[tf := Frame(u, TOP)]);
    UserClaims(t, s', u, 0, tf, tramp);
    ShowsClaimed(t, kt, Regions(c, i), tf, u);
    RegionsAbove(c, i);
    KernelStarts(s', kt, Lim(c), Regions(c, i));
    assert Copied(s', u, {}, c.mask) == map[];
    assert Pages(0) == 0;
  }

  // The pages of a process's kernel page table: its root, and the tables for the
  // regions and the stack.
  function KernelNeeds(l: Layout): nat
    requires l.kernbase <= l.etext <= l.physstop
  {
    1 + RegionsNeed(KernelRegions(l)) + 2
  }

  // Those of a new process: the trapframe, and at most five for the user page table.
  function ProcNeeds(l: Layout): nat
    requires l.kernbase <= l.etext <= l.physstop
  {
    6 + KernelNeeds(l)
  }

  lemma StackNeeds(i: nat, pa: nat)
    requires Kstack(i) >= 0
    ensures RegionNeeds(StackRegion(i, pa)) == 2
  {
  }

  // The kernel page table of process i: proc_kvminit and the kernel stack.
  method KernelTableFor(m: Memory, c: Config, i: nat) returns (k: nat)
    requires m.Inv() && Labelled(m.S()) && ConfigOk(c) && i < |c.kstacks|
    modifies m
    ensures m.Inv() && (if k != 0 then Building(old(m.S()), m.S(), k, Regions(c, i)) else m.free == {})
    ensures Enough(k != 0, KernelNeeds(c.l), old(m.free), m.free)
  {
    hide RegionsNeed, RegionNeeds, Good, Building, Labelled, KernelRegions, MaskOk, RegionOk, Separate;
    ghost var s := m.S();
    RegionsAbove(c, i);
    k := ProcKvminit(m, c.l, |c.kstacks|);
    StackNeeds(i, c.kstacks[i]);
    if k != 0 {
      var ok := MapRegion(m, k, StackRegion(i, c.kstacks[i]), s, KernelRegions(c.l));
      if !ok {
        k := 0;
      }
    }
  }

  // The page tables of a new process, page by page.
  lemma NewTablesMean(c: Config, s: Snap, i: nat, p: Proc)
    requires ConfigOk(c) && i < |c.kstacks| && ProcOk(c, s, i, p, {}) && p.sz == 0
    ensures forall v: nat | v < VPNS :: Entry(s.pt, p.kpagetable, v)
              == if v == MAXVPN - 1 - 2 * (i + 1) then Pte({V, R, W}, PageOf(c.kstacks[i])) else KernelPte(c.l, v)
    ensures Entry(s.pt, p.kpagetable, MAXVPN - 2 - 2 * (i + 1)) == ZERO_PTE
    ensures forall v: nat | v < VPNS :: Entry(s.pt, p.pagetable, v)
              == if v == MAXVPN - 1 then Pte({V, R, X}, PageOf(c.l.trampoline))
                 else if v == MAXVPN - 2 then Pte({V, R, W}, p.trapframe) else ZERO_PTE
  {
    assert Copied(s, p.pagetable, {}, c.mask) == map[] && Pages(0) == 0;
    UserMeans(s, p.pagetable, 0, p.trapframe, PageOf(c.l.trampoline), true);
    forall v: nat | v < VPNS
      ensures Entry(s.pt, p.kpagetable, v)
              == if v == MAXVPN - 1 - 2 * (i + 1) then Pte({V, R, W}, PageOf(c.kstacks[i])) else KernelPte(c.l, v)
    {
      RegionsMean(c, i, v);
      BelowDevices(c, i, v);
      hide ConfigOk, UserTable, Entry, Regions, KernelPte, Fixed;
    }
    RegionsMean(c, i, MAXVPN - 2 - 2 * (i + 1));
    hide ConfigOk, Entry, Regions, KernelPte, Fixed;
  }

  lemma BelowDevices(c: Config, i: nat, v: nat)
    requires ConfigOk(c) && i < |c.kstacks|
    ensures v < Lim(c) ==> KernelPte(c.l, v) == ZERO_PTE && v < MAXVPN - 2 - 2 * (i + 1)
  {
  }

  // allocproc for the free slot i. If a kernel page table cannot be made it panics.
  method AllocTables(m: Memory, c: Config, i: nat) returns (r: Outcome, np: Proc)
    requires m.Inv() && Labelled(m.S()) && ConfigOk(c) && i < |c.kstacks|
    modifies m
    ensures m.Inv()
    ensures r.Done? ==> ProcOk(c, m.S(), i, np, {}) && Labelled(m.S()) && np.sz == 0
                        && np.pagetable !in old(m.loc) && np.kpagetable !in old(m.loc) && np.trapframe in old(m.free)
                        && Apart(old(m.S()), m.S(), {np.pagetable, np.kpagetable})
    ensures r.Done? ==>
              forall v: nat | v < VPNS ::
                Entry(m.pt, np.kpagetable, v)
                == if v == MAXVPN - 1 - 2 * (i + 1) then Pte({V, R, W}, PageOf(c.kstacks[i])) else KernelPte(c.l, v)
    ensures r.Done? ==> Entry(m.pt, np.kpagetable, MAXVPN - 2 - 2 * (i + 1)) == ZERO_PTE
    ensures r.Done? ==>
              forall v: nat | v < VPNS ::
                Entry(m.pt, np.pagetable, v)
                == if v == MAXVPN - 1 then Pte({V, R, X}, PageOf(c.l.trampoline))
                   else if v == MAXVPN - 2 then Pte({V, R, W}, np.trapframe) else ZERO_PTE
    ensures r.Failed? ==> Apart(old(m.S()), m.S(), {}) && Labelled(m.S())
    ensures r.Panics? ==> m.free == {}
    ensures Enough(r.Done?, ProcNeeds(c.l), old(m.free), m.free)
    ensures r.Failed? ==> |old(m.free)| < 6
  {
    hide Good, Building, Labelled, ConfigOk, UserTable, Apart, ProcOk, Regions, KernelNeeds, KernelPte, Entry;
    ghost var s := m.S();
    np := NOPROC;
    ApartRefl(s, {});
    var tf := TakeFrame(m);
    if tf == 0 {
      return Failed, np;
    }
    HeldFacts(s, tf);
    assert m.S() == WithHeld(s, tf);
    var u := ProcPagetable(m, tf, PageOf(c.l.trampoline));
    ghost var k := m.S();
    if u == 0 {
      HeldBack(s, k, tf);
      FreeFrame(m, tf);
      return Failed, np;
    }
    var kt := KernelTableFor(m, c, i);
    if kt == 0 {
      return Panics, np;
    }
    BuiltNew(s, m.pages, tf, k, m.S(), u, kt, Regions(c, i));
    AllocEnds(c, s, k, m.S(), i, tf, u, kt);
    Claim(m, tf, u, TOP);
    r, np := Done, Proc(UNUSED, u, kt, 0, tf);
    NewTablesMean(c, m.S(), i, np);
  }

  // The two new page tables did not exist before.
  lemma BuiltNew(s: Snap, pages: set<nat>, tf: nat, k: Snap, t: Snap, u: nat, kt: nat, rs: seq<Region>)
    requires Good(s, pages) && Labelled(s)
    requires u !in s.loc && Apart(WithHeld(s, tf), k, {u}) && Building(k, t, kt, rs)
    ensures kt !in s.loc
  {
    FreshGone(s, pages, u);
    hide Good, Labelled, Entry;
    assert kt in s.loc ==> kt in k.loc;
  }

  /* freeproc */

  lemma TrapframeFreed(c: Config, s: Snap, i: nat, p: Proc, mp: set<nat>)
    requires ConfigOk(c) && i < |c.kstacks| && ProcOk(c, s, i, p, mp) && Labelled(s)
    ensures p.trapframe in s.used && IsRoot(s.loc, p.kpagetable)
    ensures var s' := s.(free := s.free + {p.trapframe}, used := s.used - {p.trapframe});
            && UserTable(s', p.pagetable, Pages(p.sz), p.trapframe, PageOf(c.l.trampoline), false)
            && Labelled(s') && Apart(s, s', {p.pagetable})
            && KernelTable(s', p.kpagetable, Lim(c), Regions(c, i), Copied(s, p.pagetable, mp, c.mask))
  {
  }

  lemma KernelOnly(s: Snap, s': Snap, u: nat, k: nat, lim: nat, rs: seq<Region>, f: map<nat, Pte>)
    requires KernelTable(s, k, lim, rs, f) && Apart(s, s', {u}) && k != u
    ensures IsRoot(s'.loc, k) && NoFrames(s', k)
  {
  }

  lemma BothGone(s: Snap, k: Snap, s': Snap, u: nat, kt: nat)
    requires Apart(s, k, {u}) && Gone(k, {u}) && Apart(k, s', {kt}) && Gone(s', {kt}) && u != kt
    ensures Gone(s', {u, kt}) && Apart(s, s', {u, kt})
  {
  }

  // freeproc: the trapframe, the user page table with its frames, and the tables,
  // but not the frames, of the kernel page table.
  method FreeTables(m: Memory, c: Config, ghost i: nat, p: Proc, ghost mp: set<nat>)
    requires m.Inv() && Labelled(m.S()) && ConfigOk(c) && i < |c.kstacks| && ProcOk(c, m.S(), i, p, mp)
    modifies m
    ensures m.Inv() && Labelled(m.S()) && Gone(m.S(), {p.pagetable, p.kpagetable})
    ensures Apart(old(m.S()), m.S(), {p.pagetable, p.kpagetable}) && old(m.free) <= m.free
  {
    hide Good, Labelled, ConfigOk, UserTable, Apart, ProcOk, Regions, Gone, KernelTable;
    hide IsRoot, NoFrames, Copied, Minus, Tree, OthersKept, Pages, PageOf, Lim;
    ghost var s := m.S();
    TrapframeFreed(c, s, i, p, mp);
    ProcDistinct(c, s, i, p, mp);
    FreeFrame(m, p.trapframe);
    ghost var t := m.S();
    ProcFreepagetable(m, p.pagetable, p.sz, p.trapframe, PageOf(c.l.trampoline));
    ghost var k := m.S();
    KernelOnly(t, k, p.pagetable, p.kpagetable, Lim(c), Regions(c, i), Copied(s, p.pagetable, mp, c.mask));
    ApartTrans(s, t, k, {p.pagetable});
    FreeTree(m, p.kpagetable);
    MinusFree(k, Tree(k.loc, p.kpagetable));
    ApartTreeGone(k, m.S(), p.kpagetable);
    FreedGone(k, m.S(), p.kpagetable);
    BothGone(s, k, m.S(), p.pagetable, p.kpagetable);
  }

  lemma ProcDistinct(c: Config, s: Snap, i: nat, p: Proc, mp: set<nat>)
    requires ConfigOk(c) && i < |c.kstacks| && ProcOk(c, s, i, p, mp)
    ensures p.pagetable != p.kpagetable && p.pagetable != 0 && p.kpagetable != 0
  {
  }

  // allocproc and then freeproc: the same pages are free again.
  method AllocThenFree(m: Memory, c: Config, i: nat) returns (r: Outcome)
    requires m.Inv() && Labelled(m.S()) && ConfigOk(c) && i < |c.kstacks|
    modifies m
    ensures m.Inv()
    ensures !r.Panics? ==> m.free == old(m.free) && Apart(old(m.S()), m.S(), {})
  {
    hide Good, Labelled, ConfigOk, Apart, ProcOk, Gone;
    ghost var s := m.S();
    var np;
    r, np := AllocTables(m, c, i);
    if r.Done? {
      ghost var k := m.S();
      FreeTables(m, c, i, np, {});
      ApartTrans(s, k, m.S(), {np.pagetable, np.kpagetable});
      NothingLeft(s, m.S(), m.pages, np.pagetable, np.kpagetable);
    } else if r.Failed? {
      GoneNone(s, m.S());
      SameFree(s, m.S(), m.pages, {});
    }
  }

  lemma GoneNone(s: Snap, s': Snap)
    ensures Gone(s, {}) && Gone(s', {})
  {
  }

  lemma NothingLeft(s: Snap, s': Snap, pages: set<nat>, u: nat, kt: nat)
    requires Good(s, pages) && Good(s', pages) && Labelled(s) && u !in s.loc && kt !in s.loc
    requires Apart(s, s', {u, kt}) && Gone(s', {u, kt})
    ensures s'.free == s.free && Apart(s, s', {})
  {
    hide Good, Labelled, Apart, Gone;
    FreshGone(s, pages, u);
    FreshGone(s, pages, kt);
    GoneTwo(s, u, kt);
    SameFree(s, s', pages, {u, kt});
    ApartNothing(s, s', {u, kt});
  }

  lemma GoneTwo(s: Snap, u: nat, kt: nat)
    requires Gone(s, {u}) && Gone(s, {kt})
    ensures Gone(s, {u, kt})
  {
  }
}
