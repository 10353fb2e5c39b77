/** Booting: the kernel's own page table and the kernel stacks, with which the
    process table starts out. */
module Boot {
  import opened Sv39
  import opened Vm
  import opened Uvm
  import opened UserMem
  import opened CopyPage
  import opened Isolation
  import opened Kvm
  import opened UserTables
  import opened Mirror
  import opened Processes
  import opened ProcTable
  import opened Syscalls

  // All there is so far is the kernel's page table, with these regions, and the
  // pages the kernel holds.
  ghost predicate Booting(s: Snap, kroot: nat, rs: seq<Region>, base: set<nat>) {
    && Shows(s, kroot, rs) && kroot != 0
    && (forall q | q in s.loc :: s.loc[q].root == kroot)
    && (forall p :: p in s.used <==> p in base) && (forall p | p in s.used :: s.used[p] == Held)
  }

  lemma BootingNext(s: Snap, s': Snap, kroot: nat, rs: seq<Region>, rs': seq<Region>, base: set<nat>)
    requires Booting(s, kroot, rs, base) && s'.used == s.used && Apart(s, s', {kroot}) && Shows(s', kroot, rs')
    ensures Booting(s', kroot, rs', base)
  {
  }

  lemma BootingHeld(s: Snap, kroot: nat, rs: seq<Region>, base: set<nat>, p: nat)
    requires Booting(s, kroot, rs, base)
    ensures Booting(WithHeld(s, p), kroot, rs, base + {p}) && (p !in s.used ==> p !in base)
  {
  }

  lemma AddrIs(p: nat)
    ensures Addr(p) % 4096 == 0 && Addr(p) / 4096 == p
  {
  }

  // kvmmap while booting; false stands for its panic.
  method Kvmmap(m: Memory, kroot: nat, r: Region, ghost rs: seq<Region>, ghost base: set<nat>) returns (ok: bool)
    requires m.Inv() && Booting(m.S(), kroot, rs, base) && RegionOk(r) && forall j | 0 <= j < |rs| :: Separate(rs[j], r)
    modifies m
    ensures m.Inv() && (ok ==> Booting(m.S(), kroot, rs + [r], base))
    ensures Enough(ok, RegionNeeds(r), old(m.free), m.free)
  {
    hide RegionNeeds, Good, Shows, RegionOk, Separate, Clear, Apart;
    ghost var s := m.S();
    ClearIf(rs, r);
    ok := ProcKvmmap(m, kroot, r, rs);
    if ok {
      BootingNext(s, m.S(), kroot, rs, rs + [r], base);
    }
  }

  // The regions of kvminit: those of proc_kvminit and the CLINT.
  function BootRegion(l: Layout, clint: nat, j: nat): Region
    requires j < 7 && l.kernbase <= l.etext <= l.physstop
  {
    if j < 2 then KernelRegion(l, j)
    else if j == 2 then Region(clint, clint, 0x1_0000, {R, W})
    else KernelRegion(l, j - 1)
  }

  predicate ClintOk(l: Layout, clint: nat) {
    clint % 4096 == 0 && clint + 0x1_0000 <= l.plic
  }

  lemma BootRegionFits(l: Layout, clint: nat, n: nat, j: nat)
    requires LayoutOk(l, n) && ClintOk(l, clint) && j < 7
    ensures RegionOk(BootRegion(l, clint, j))
    ensures forall k: nat | k < j :: Separate(BootRegion(l, clint, k), BootRegion(l, clint, j))
  {
  }

  lemma BootStackFits(l: Layout, clint: nat, n: nat, i: nat, pa: nat, k: nat)
    requires LayoutOk(l, n) && ClintOk(l, clint) && i < n && k < 7
    ensures Kstack(i) >= 0 && RegionOk(StackRegion(i, pa))
    ensures Separate(BootRegion(l, clint, k), StackRegion(i, pa))
  {
    StackFits(l, n, i, pa, if k < 2 then k else if k == 2 then 0 else k - 1);
  }

  lemma StacksApart(l: Layout, n: nat, i: nat, pa: nat, j: nat, pb: nat)
    requires LayoutOk(l, n) && i < j < n
    ensures Kstack(i) >= 0 && Kstack(j) >= 0 && Separate(StackRegion(i, pa), StackRegion(j, pb))
  {
  }

  // The first regions, and then the stacks of the first processes.
  ghost predicate Listed(l: Layout, clint: nat, n: nat, rs: seq<Region>, kstacks: seq<nat>)
    requires LayoutOk(l, n) && |kstacks| <= n
  {
    && |rs| == 7 + |kstacks|
    && (forall j: nat | j < 7 :: rs[j] == BootRegion(l, clint, j))
    && (forall j: nat | j < |kstacks| :: Kstack(j) >= 0 && rs[7 + j] == StackRegion(j, kstacks[j]))
  }

  lemma StackNext(l: Layout, clint: nat, n: nat, rs: seq<Region>, kstacks: seq<nat>, pa: nat)
    requires LayoutOk(l, n) && ClintOk(l, clint) && |kstacks| < n && Listed(l, clint, n, rs, kstacks)
    ensures Kstack(|kstacks|) >= 0 && RegionOk(StackRegion(|kstacks|, pa))
    ensures forall j | 0 <= j < |rs| :: Separate(rs[j], StackRegion(|kstacks|, pa))
    ensures Listed(l, clint, n, rs + [StackRegion(|kstacks|, pa)], kstacks + [pa])
  {
    var i := |kstacks|;
    BootStackFits(l, clint, n, i, pa, 0);
    forall j | 0 <= j < |rs|
      ensures Separate(rs[j], StackRegion(i, pa))
    {
      if j < 7 {
        BootStackFits(l, clint, n, i, pa, j);
      } else {
        StacksApart(l, n, j - 7, kstacks[j - 7], i, pa);
        assert rs[7 + (j - 7)] == StackRegion(j - 7, kstacks[j - 7]);
      }
    }
    hide Separate, BootRegion, RegionOk;
  }

  // These regions page by page: what every kernel page table has, the CLINT, and the
  // stacks.
  lemma {:induction false} ListedMeans(l: Layout, clint: nat, n: nat, rs: seq<Region>, kstacks: seq<nat>, v: nat)
    requires LayoutOk(l, n) && ClintOk(l, clint) && |kstacks| <= n && Listed(l, clint, n, rs, kstacks)
    ensures forall i | 0 <= i < |kstacks| && v == MAXVPN - 1 - 2 * (i + 1) ::
              Fixed(rs, v) == Pte({V, R, W}, kstacks[i] / 4096)
    ensures v < MAXVPN - 1 - 2 * |kstacks| || MAXVPN - 1 <= v || (MAXVPN - 1 - v) % 2 == 1 ==>
              Fixed(rs, v) == if clint / 4096 <= v < clint / 4096 + 16 then Pte({V, R, W}, v) else KernelPte(l, v)
    decreases |kstacks|
  {
    hide KernelPte, BootRegion, In;
    var last := |kstacks| - 1;
    if kstacks == [] {
      BootMaps(l, clint, n, rs, v);
    } else {
      assert rs[7 + last] == StackRegion(last, kstacks[last]);
      ListedMeans(l, clint, n, rs[..|rs| - 1], kstacks[..last], v);
      StackPage(l, n, last, kstacks[last], v);
      hide Listed, StackRegion;
      if v == MAXVPN - 1 - 2 * (last + 1) {
        assert Fixed(rs, v) == Pte({V, R, W}, kstacks[last] / 4096);
      } else {
        assert Fixed(rs, v) == Fixed(rs[..|rs| - 1], v);
        assert forall i | 0 <= i < last :: kstacks[..last][i] == kstacks[i];
      }
    }
  }

  lemma StackPage(l: Layout, n: nat, i: nat, pa: nat, v: nat)
    requires LayoutOk(l, n) && i < n
    ensures Kstack(i) >= 0
    ensures var r := StackRegion(i, pa);
            && (In(r, v) <==> v == MAXVPN - 1 - 2 * (i + 1))
            && (In(r, v) ==> Pte(r.perm + {V}, PageOf(r.pa) + (v - PageOf(r.va))) == Pte({V, R, W}, pa / 4096))
  {
    assert {R, W} + {V} == {V, R, W};
  }

  lemma BootMaps(l: Layout, clint: nat, n: nat, rs: seq<Region>, v: nat)
    requires LayoutOk(l, n) && ClintOk(l, clint) && |rs| == 7
    requires forall j: nat | j < 7 :: rs[j] == BootRegion(l, clint, j)
    ensures Fixed(rs, v) == if clint / 4096 <= v < clint / 4096 + 16 then Pte({V, R, W}, v) else KernelPte(l, v)
  {
    hide BootRegion, KernelRegion, KernelRegions, KernelPte, Fixed, In, Separate, RegionOk;
    ClintPages(l, clint, v);
    RegionsMap(l, n, v);
    if j: nat :| j < 7 && In(BootRegion(l, clint, j), v) {
      forall k: nat | k < 7 && k != j
        ensures !In(BootRegion(l, clint, k), v)
      {
        BootRegionFits(l, clint, n, if k < j then j else k);
        NotInBoth(BootRegion(l, clint, j), BootRegion(l, clint, k), v);
      }
      FixedAt(rs, j, v);
      BootIs(l, clint, j);
      if j != 2 {
        OneRegion(l, n, if j < 2 then j else j - 1, v);
      }
    } else {
      FixedElsewhere(rs, v);
      forall j: nat | j < 6
        ensures !In(KernelRegion(l, j), v)
      {
        BootIs(l, clint, if j < 2 then j else j + 1);
      }
      NoRegion(l, v);
    }
  }

  lemma ClintPages(l: Layout, clint: nat, v: nat)
    requires l.kernbase <= l.etext <= l.physstop && ClintOk(l, clint)
    ensures var r := BootRegion(l, clint, 2);
            && (In(r, v) <==> clint / 4096 <= v < clint / 4096 + 16)
            && (In(r, v) ==> Pte(r.perm + {V}, PageOf(r.pa) + (v - PageOf(r.va))) == Pte({V, R, W}, v))
  {
    assert {R, W} + {V} == {V, R, W};
  }

  lemma BootIs(l: Layout, clint: nat, j: nat)
    requires j < 7 && l.kernbase <= l.etext <= l.physstop
    ensures j < 2 ==> BootRegion(l, clint, j) == KernelRegion(l, j)
    ensures j > 2 ==> BootRegion(l, clint, j) == KernelRegion(l, j - 1)
  {
  }

  // What kvminit and procinit map: the CLINT; each kernel stack, two pages further
  // down for each slot, with nothing in between; and what every kernel page table has.
  ghost predicate BootMapped(pt: Heap, kroot: nat, l: Layout, clint: nat, kstacks: seq<nat>) {
    && (forall v: nat | clint / 4096 <= v < clint / 4096 + 16 :: Entry(pt, kroot, v) == Pte({V, R, W}, v))
    && (forall i, v: nat | 0 <= i < |kstacks| && v == MAXVPN - 1 - 2 * (i + 1) ::
          Entry(pt, kroot, v) == Pte({V, R, W}, kstacks[i] / 4096))
    && (forall v: nat | MAXVPN - 2 - 2 * |kstacks| <= v < MAXVPN - 1 && (MAXVPN - 1 - v) % 2 == 1 ::
          Entry(pt, kroot, v) == ZERO_PTE)
    && (forall v: nat | v < VPNS && (v < MAXVPN - 1 - 2 * |kstacks| || MAXVPN - 1 <= v)
                        && !(clint / 4096 <= v < clint / 4096 + 16) ::
          Entry(pt, kroot, v) == KernelPte(l, v))
  }

  lemma BootMeans(s: Snap, kroot: nat, l: Layout, clint: nat, n: nat, rs: seq<Region>, kstacks: seq<nat>,
                  base: set<nat>)
    requires LayoutOk(l, n) && ClintOk(l, clint) && |kstacks| <= n && Listed(l, clint, n, rs, kstacks)
    requires Booting(s, kroot, rs, base)
    ensures BootMapped(s.pt, kroot, l, clint, kstacks)
  {
    hide Listed, Fixed, KernelPte, Entry;
    forall v: nat | v < VPNS
      ensures Entry(s.pt, kroot, v) == Fixed(rs, v)
    {
    }
    forall i, v: nat | 0 <= i < |kstacks| && v == MAXVPN - 1 - 2 * (i + 1)
      ensures Entry(s.pt, kroot, v) == Pte({V, R, W}, kstacks[i] / 4096)
    {
      ListedMeans(l, clint, n, rs, kstacks, v);
      ClintLow(l, clint, n, v);
    }
    forall v: nat | v < VPNS && (v < MAXVPN - 1 - 2 * |kstacks| || MAXVPN - 1 <= v || (MAXVPN - 1 - v) % 2 == 1)
      ensures Entry(s.pt, kroot, v)
           == if clint / 4096 <= v < clint / 4096 + 16 then Pte({V, R, W}, v) else KernelPte(l, v)
      ensures MAXVPN - 2 - 2 * |kstacks| <= v < MAXVPN - 1 && (MAXVPN - 1 - v) % 2 == 1 ==>
                Entry(s.pt, kroot, v) == ZERO_PTE
    {
      ListedMeans(l, clint, n, rs, kstacks, v);
      ClintLow(l, clint, n, v);
    }
    ClintLow(l, clint, n, 0);
  }

  lemma ClintLow(l: Layout, clint: nat, n: nat, v: nat)
    requires LayoutOk(l, n) && ClintOk(l, clint)
    ensures clint / 4096 + 16 <= MAXVPN - 2 - 2 * n
    ensures MAXVPN - 2 - 2 * n <= v < MAXVPN - 1 ==> KernelPte(l, v) == ZERO_PTE
  {
  }

  // The tables for the first j regions.
  function RegionsUpTo(l: Layout, clint: nat, j: nat): nat
    requires j <= 7 && l.kernbase <= l.etext <= l.physstop
  {
    if j == 0 then 0 else RegionsUpTo(l, clint, j - 1) + RegionNeeds(BootRegion(l, clint, j - 1))
  }

  // The pages that booting takes: the kernel's page table, and for each kernel
  // stack the stack and at most two tables.
  function BootNeeds(l: Layout, clint: nat, nproc: nat): nat
    requires l.kernbase <= l.etext <= l.physstop
  {
    1 + RegionsUpTo(l, clint, 7) + 3 * nproc
  }

  lemma {:induction false} RegionsOrder(l: Layout, clint: nat, j: nat)
    requires j <= 7 && l.kernbase <= l.etext <= l.physstop
    ensures RegionsUpTo(l, clint, j) <= RegionsUpTo(l, clint, 7)
    decreases 7 - j
  {
    hide RegionNeeds, BootRegion;
    if j < 7 {
      RegionsOrder(l, clint, j + 1);
    }
  }

  // kvminit.
  method Kvminit(m: Memory, l: Layout, clint: nat, ghost n: nat) returns (ok: bool, kroot: nat, ghost rs: seq<Region>)
    requires m.Inv() && LayoutOk(l, n) && ClintOk(l, clint) && m.pt == map[] && m.loc == map[] && m.used == map[]
    modifies m
    ensures m.Inv() && (ok ==> Listed(l, clint, n, rs, []) && Booting(m.S(), kroot, rs, {}))
    ensures ok ==>
              && (forall v: nat | clint / 4096 <= v < clint / 4096 + 16 :: Entry(m.pt, kroot, v) == Pte({V, R, W}, v))
              && (forall v: nat | v < VPNS && !(clint / 4096 <= v < clint / 4096 + 16) ::
                    Entry(m.pt, kroot, v) == KernelPte(l, v))
    ensures Enough(ok, 1 + RegionsUpTo(l, clint, 7), old(m.free), m.free)
  {
    hide RegionNeeds, Good, Booting, RegionOk, Separate, BootRegion, Blank, Apart, KernelPte, Entry;
    ghost var s := m.S();
    rs := [];
    kroot := UvmCreate(m);
    if kroot == 0 {
      return false, kroot, rs;
    }
    BootStart(s, m.S(), kroot);
    var j := 0;
    while j < 7
      invariant 0 <= j <= 7 && m.Inv() && Booting(m.S(), kroot, rs, {})
      invariant |rs| == j && forall k: nat | k < j :: rs[k] == BootRegion(l, clint, k)
      invariant |s.free| <= |m.free| + 1 + RegionsUpTo(l, clint, j)
    {
      RegionsOrder(l, clint, j + 1);
      BootRegionFits(l, clint, n, j);
      var r := BootRegion(l, clint, j);
      ok := Kvmmap(m, kroot, r, rs, {});
      if !ok {
        return;
      }
      rs := rs + [r];
      j := j + 1;
    }
    BootMeans(m.S(), kroot, l, clint, n, rs, [], {});
    ok := true;
  }

  lemma BootStart(s: Snap, s': Snap, kroot: nat)
    requires s.loc == map[] && s.used == map[] && Blank(s', kroot) && Apart(s, s', {kroot}) && kroot != 0
    ensures Booting(s', kroot, [], {})
  {
  }

  lemma BootWorld(c: Config, s: Snap, rs: seq<Region>)
    requires ConfigOk(c) && Booting(s, c.kroot, rs, c.base)
    ensures World(c, s, seq(|c.kstacks|, _ => NOPROC), seq(|c.kstacks|, _ => {}))
  {
  }

  // The page allocator's pages are memory, from the kernel on.
  predicate InMemory(l: Layout, pages: set<nat>) {
    forall p | p in pages :: PageOf(l.kernbase) <= p < PageOf(l.physstop)
  }

  // Memory has no more pages than there are below the PLIC.
  predicate SmallMemory(l: Layout) { PageOf(l.physstop) - PageOf(l.kernbase) <= PageOf(l.plic) }

  lemma {:induction false} RangeSize(lo: nat, hi: nat)
    requires lo <= hi
    ensures |Range(lo, hi)| == hi - lo
    decreases hi - lo
  {
    if lo < hi {
      RangeSize(lo, hi - 1);
      assert Range(lo, hi) == Range(lo, hi - 1) + {hi - 1};
    } else {
      assert Range(lo, hi) == {};
    }
  }

  lemma MemorySize(l: Layout, n: nat, pages: set<nat>)
    requires LayoutOk(l, n) && InMemory(l, pages)
    ensures 0 !in pages && |pages| <= PageOf(l.physstop) - PageOf(l.kernbase)
  {
    var all := Range(PageOf(l.kernbase), PageOf(l.physstop));
    assert pages <= all;
    Fewer(pages, all);
    RangeSize(PageOf(l.kernbase), PageOf(l.physstop));
    hide Range;
  }

  // kvminit and procinit: a kernel stack for each slot, then no process at all.
  method Start(pages: set<nat>, l: Layout, clint: nat, nproc: nat, mask: set<Flag>) returns (k: Kernel?)
    requires InMemory(l, pages) && LayoutOk(l, nproc) && ClintOk(l, clint) && MaskOk(mask)
    ensures k != null ==> k.Inv() && k.proc == seq(nproc, _ => NOPROC) && k.m.pages == pages && fresh(k) && fresh(k.m)
    ensures k != null ==> k.c.l == l && k.c.mask == mask && |pages| <= |k.m.free| + BootNeeds(l, clint, nproc)
    ensures k == null ==> |pages| < BootNeeds(l, clint, nproc)
    ensures k != null && SmallMemory(l) ==> |k.m.pages| <= Lim(k.c)
    ensures k != null ==>
              && |k.c.kstacks| == nproc
              && (forall i | 0 <= i < nproc :: k.c.kstacks[i] % 4096 == 0 && k.c.kstacks[i] / 4096 in k.c.base)
              && forall i, j | 0 <= i < j < nproc :: k.c.kstacks[i] != k.c.kstacks[j]
    ensures k != null ==> BootMapped(k.m.pt, k.c.kroot, l, clint, k.c.kstacks)
  {
    hide InMemory, RegionsUpTo, RegionNeeds, Good, Booting, RegionOk, Separate, World, Listed, BootMapped;
    MemorySize(l, nproc, pages);
    var m := new Memory(pages);
    var ok, kroot;
    ghost var rs;
    ok, kroot, rs := Kvminit(m, l, clint, nproc);
    if !ok {
      return null;
    }
    var kstacks: seq<nat> := [];
    var base: set<nat> := {};
    while |kstacks| < nproc
      invariant |kstacks| <= nproc && m.Inv() && Booting(m.S(), kroot, rs, base) && Listed(l, clint, nproc, rs, kstacks)
      invariant m.pages == pages && fresh(m)
      invariant forall i | 0 <= i < |kstacks| :: kstacks[i] % 4096 == 0 && kstacks[i] / 4096 in base
      invariant forall i, j | 0 <= i < j < |kstacks| :: kstacks[i] != kstacks[j]
      invariant |pages| <= |m.free| + 1 + RegionsUpTo(l, clint, 7) + 3 * |kstacks|
      decreases nproc - |kstacks|
    {
      ghost var s := m.S();
      var pa := TakeFrame(m);
      if pa == 0 {
        return null;
      }
      BootingHeld(s, kroot, rs, base, pa);
      AddrIs(pa);
      StackNext(l, clint, nproc, rs, kstacks, Addr(pa));
      StackNeeds(|kstacks|, Addr(pa));
      ok := Kvmmap(m, kroot, StackRegion(|kstacks|, Addr(pa)), rs, base + {pa});
      if !ok {
        return null;
      }
      rs := rs + [StackRegion(|kstacks|, Addr(pa))];
      kstacks, base := kstacks + [Addr(pa)], base + {pa};
    }
    var c := Config(l, mask, kstacks, kroot, base);
    BootWorld(c, m.S(), rs);
    BootMeans(m.S(), kroot, l, clint, nproc, rs, kstacks, base);
    k := new Kernel(m, c);
  }

  // The kernel boots and starts the first process, if memory is enough.
  method FirstProcess(pages: set<nat>, l: Layout, clint: nat, nproc: nat, mask: set<Flag>)
    returns (k: Kernel?, ok: bool)
    requires InMemory(l, pages) && LayoutOk(l, nproc) && ClintOk(l, clint) && MaskOk(mask) && 0 < nproc
    ensures ok ==> k != null && k.Inv() && fresh(k) && fresh(k.m) && k.Alive(0) && k.c.l == l && k.c.mask == mask
    ensures ok ==> |k.mapped| == |k.proc| == nproc && k.proc[0].sz == PGSIZE && k.mapped[0] == {0}
    ensures ok ==> |pages| <= |k.m.free| + BootNeeds(l, clint, nproc) + UserinitNeeds(l)
    ensures BootNeeds(l, clint, nproc) + UserinitNeeds(l) <= |pages| ==> ok
    ensures ok ==> k.m.pages == pages && (SmallMemory(l) ==> |pages| <= Lim(k.c))
  {
    hide World, InMemory, Good, ConfigOk, BootNeeds, ProcNeeds;
    ok := false;
    k := Start(pages, l, clint, nproc, mask);
    if k != null {
      var i;
      assert k.proc[0] == NOPROC;
      ok, i := k.Userinit();
      assert ok ==> i == 0;
    }
  }

  // An address space with 128 megabytes of memory, wherever the kernel's text ends.
  function SampleLayout(etext: nat, trampoline: nat): Layout {
    Layout(0x1000_0000, 0x1000_1000, 0x0c00_0000, 0x8000_0000, etext, 0x8800_0000, trampoline)
  }

  const SAMPLE_CLINT: nat := 0x200_0000

  // With 64 slots, 500 pages are enough there to boot and start the first process,
  // and memory is smaller than what lies below the PLIC.
  lemma FewPagesSuffice(etext: nat, trampoline: nat)
    requires 0x8000_0000 < etext < 0x8800_0000 && etext % 4096 == 0
    ensures var l := SampleLayout(etext, trampoline);
            && LayoutOk(l, 64) && ClintOk(l, SAMPLE_CLINT) && SmallMemory(l)
            && BootNeeds(l, SAMPLE_CLINT, 64) + UserinitNeeds(l) <= 500
  {
    hide RegionNeeds, RegionsNeed, KernelRegions, RegionsUpTo, KernelRegion, BootRegion;
    var l := SampleLayout(etext, trampoline);
    RegionsSum(l);
    BootSum(l, SAMPLE_CLINT);
    SampleRegions(etext, trampoline);
  }

  lemma SampleRegions(etext: nat, trampoline: nat)
    requires 0x8000_0000 < etext < 0x8800_0000 && etext % 4096 == 0
    ensures var l := SampleLayout(etext, trampoline);
            && RegionNeeds(KernelRegion(l, 0)) == 2 && RegionNeeds(KernelRegion(l, 1)) == 2
            && RegionNeeds(KernelRegion(l, 2)) == 4 && RegionNeeds(KernelRegion(l, 5)) == 2
            && RegionNeeds(KernelRegion(l, 3)) + RegionNeeds(KernelRegion(l, 4)) <= 130
            && RegionNeeds(BootRegion(l, SAMPLE_CLINT, 2)) == 2
  {
    hide RegionNeeds, Blocks;
    var l := SampleLayout(etext, trampoline);
    TextAndData(etext / 4096);
    RegionIs(KernelRegion(l, 3), 0x80000, etext / 4096);
    RegionIs(KernelRegion(l, 4), etext / 4096, 0x88000);
    RegionIs(KernelRegion(l, 0), 0x10000, 0x10001);
    RegionIs(KernelRegion(l, 1), 0x10001, 0x10002);
    RegionIs(KernelRegion(l, 2), 0xc000, 0xc400);
    RegionIs(KernelRegion(l, 5), 0x3ff_ffff, 0x400_0000);
    RegionIs(BootRegion(l, SAMPLE_CLINT, 2), 0x2000, 0x2010);
    FixedBlocks();
  }

  lemma RegionIs(r: Region, lo: nat, hi: nat)
    requires PageOf(r.va) == lo < hi == LastPage(r.va, r.size) + 1
    ensures RegionNeeds(r) == 2 * Blocks(lo, hi)
  {
  }

  lemma FixedBlocks()
    ensures Blocks(0x10000, 0x10001) == Blocks(0x10001, 0x10002) == Blocks(0x3ff_ffff, 0x400_0000) == 1
    ensures Blocks(0xc000, 0xc400) == 2 && Blocks(0x2000, 0x2010) == 1
  {
  }

  lemma TextAndData(p: nat)
    requires 0x80000 < p < 0x88000
    ensures Blocks(0x80000, p) + Blocks(p, 0x88000) <= 65
  {
  }

  lemma BootSum(l: Layout, clint: nat)
    requires l.kernbase <= l.etext <= l.physstop
    ensures RegionsUpTo(l, clint, 7) == RegionsNeed(KernelRegions(l)) + RegionNeeds(BootRegion(l, clint, 2))
  {
    hide RegionNeeds, KernelRegions;
    RegionsSum(l);
    forall j: nat | j < 7
      ensures RegionsUpTo(l, clint, j + 1) == RegionsUpTo(l, clint, j) + RegionNeeds(BootRegion(l, clint, j))
    {
    }
  }

  lemma RegionsSum(l: Layout)
    requires l.kernbase <= l.etext <= l.physstop
    ensures RegionsNeed(KernelRegions(l)) ==
            RegionNeeds(KernelRegion(l, 0)) + RegionNeeds(KernelRegion(l, 1)) + RegionNeeds(KernelRegion(l, 2))
            + RegionNeeds(KernelRegion(l, 3)) + RegionNeeds(KernelRegion(l, 4)) + RegionNeeds(KernelRegion(l, 5))
  {
    hide RegionNeeds, KernelRegion;
    var rs := KernelRegions(l);
    assert RegionsNeed([]) == 0;
    forall j: nat | j < 6
      ensures RegionsNeed(rs[..j + 1]) == RegionsNeed(rs[..j]) + RegionNeeds(KernelRegion(l, j))
    {
      NeedsAppend(rs[..j], KernelRegion(l, j));
      assert rs[..j] + [KernelRegion(l, j)] == rs[..j + 1];
    }
    assert rs[..0] == [] && rs[..6] == rs;
  }
}
