/** Creating page tables: empty ones, those of processes and those of the kernel. */
module Kvm {
  import opened Sv39
  import opened Vm
  import opened Uvm
  import opened UserMem
  import opened Isolation

  // Frames belong to page tables that exist.
  ghost predicate Labelled(s: Snap) {
    forall p | p in s.used && s.used[p].Frame? :: IsRoot(s.loc, s.used[p].root)
  }

  ghost predicate NoFrames(s: Snap, root: nat) {
    forall p | p in s.used :: !Of(s.used[p], {root})
  }

  // A page table that maps nothing.
  ghost predicate Blank(s: Snap, root: nat) {
    IsRoot(s.loc, root) && (forall v: nat | v < VPNS :: Entry(s.pt, root, v) == ZERO_PTE) && NoFrames(s, root)
  }

  ghost function NewRoot(s: Snap, c: nat): Snap {
    Snap(s.pt[c := NoEntries()], s.loc[c := Loc(c, 2, 0, c)], s.free - {c}, s.used)
  }

  lemma NewRootPage(pt: Heap, loc: map<nat, Loc>, c: nat, l: Loc, q: nat)
    requires q in pt && q in loc && q != c && c !in pt && c !in loc && PageOk(pt, loc, q)
    ensures PageOk(pt[c := NoEntries()], loc[c := l], q)
  {
    hide NoEntries, Present, Leaf;
    var pt', loc' := pt[c := NoEntries()], loc[c := l];
    forall j | 0 <= j < ENTRIES
      ensures EntryOk(pt', loc', q, j)
    {
      assert EntryOk(pt, loc, q, j);
    }
  }

  lemma NewRootShape(s: Snap, c: nat)
    requires Shape(s.pt, s.loc) && c !in s.pt && c != 0
    ensures Shape(NewRoot(s, c).pt, NewRoot(s, c).loc) && c !in s.loc
  {
    assert s.pt.Keys == s.loc.Keys && c !in s.loc.Keys;
    var t := NewRoot(s, c);
    forall q | q in t.pt
      ensures q in t.loc && PageOk(t.pt, t.loc, q)
    {
      if q != c {
        NewRootPage(s.pt, s.loc, c, Loc(c, 2, 0, c), q);
      }
    }
    hide PageOk;
    assert t.pt.Keys == s.pt.Keys + {c} && t.loc.Keys == s.loc.Keys + {c};
  }

  lemma NewRootMeaning(s: Snap, c: nat, r: nat, v: nat)
    requires Shape(s.pt, s.loc) && c !in s.pt && c != 0 && v < VPNS
    ensures Entry(NewRoot(s, c).pt, c, v) == ZERO_PTE
    ensures IsRoot(s.loc, r) ==> Entry(NewRoot(s, c).pt, r, v) == Entry(s.pt, r, v)
  {
    if IsRoot(s.loc, r) {
      TablesPlaced(s.pt, s.loc, r, v);
    }
    hide Px;
    assert 0 !in s.pt;
    hide Shape;
  }

  lemma NewRootAccounts(s: Snap, pages: set<nat>, c: nat)
    requires Accounts(s, pages) && c in s.free
    ensures Accounts(NewRoot(s, c), pages) && c !in s.pt && c != 0
  {
  }

  lemma NewRootApart(s: Snap, c: nat)
    requires Shape(s.pt, s.loc) && Labelled(s) && c !in s.pt && c !in s.loc && c != 0
    ensures Blank(NewRoot(s, c), c) && Labelled(NewRoot(s, c)) && Apart(s, NewRoot(s, c), {c})
  {
    hide PageOk, Entry;
    var t := NewRoot(s, c);
    forall r, v: nat | v < VPNS
      ensures Entry(t.pt, c, v) == ZERO_PTE && (IsRoot(s.loc, r) ==> Entry(t.pt, r, v) == Entry(s.pt, r, v))
    {
      NewRootMeaning(s, c, r, v);
    }
  }

  lemma NewRootGood(s: Snap, pages: set<nat>, c: nat)
    requires Good(s, pages) && Labelled(s) && c in s.free
    ensures Good(NewRoot(s, c), pages) && Blank(NewRoot(s, c), c) && Labelled(NewRoot(s, c))
    ensures Apart(s, NewRoot(s, c), {c}) && c !in s.loc && c != 0
  {
    hide Accounts, Shape, Blank, Labelled, Apart, NewRoot;
    NewRootAccounts(s, pages, c);
    NewRootShape(s, c);
    NewRootApart(s, c);
  }

  // uvmcreate, and the first lines of proc_kvminit: a zeroed page.
  method UvmCreate(m: Memory) returns (root: nat)
    requires m.Inv() && Labelled(m.S())
    modifies m
    ensures m.Inv() && Labelled(m.S())
    ensures root == 0 ==> m.S() == old(m.S()) && m.free == {}
    ensures root != 0 ==> Blank(m.S(), root) && Apart(old(m.S()), m.S(), {root})
    ensures root != 0 ==> root !in old(m.loc) && root in old(m.free)
    ensures Enough(root != 0, 1, old(m.free), m.free)
  {
    hide Good, Apart, Blank, Labelled, NoEntries;
    ghost var s := m.S();
    root := TakeFrame(m);
    if root == 0 {
      return;
    }
    NewRootGood(s, m.pages, root);
    assert s.used[root := Held] - {root} == s.used;
    m.pt, m.loc, m.used := m.pt[root := NoEntries()], m.loc[root := Loc(root, 2, 0, root)], m.used - {root};
    assert m.S() == NewRoot(s, root);
  }

  /* Kernel page tables. */

  // A stretch of virtual addresses mapped to consecutive physical ones.
  datatype Region = Region(va: nat, pa: nat, size: nat, perm: set<Flag>)

  predicate In(r: Region, v: nat) {
    PageOf(r.va) <= v <= LastPage(r.va, r.size)
  }

  predicate RegionOk(r: Region) {
    LeafPerm(r.perm) && PageOf(r.va) <= LastPage(r.va, r.size) < MAXVPN
  }

  // The tables a region may take.
  function RegionNeeds(r: Region): nat {
    2 * Blocks(PageOf(r.va), if LastPage(r.va, r.size) < 0 then 0 else LastPage(r.va, r.size) + 1)
  }

  function RegionsNeed(rs: seq<Region>): nat {
    if rs == [] then 0 else RegionsNeed(rs[..|rs| - 1]) + RegionNeeds(rs[|rs| - 1])
  }

  lemma NeedsAppend(rs: seq<Region>, r: Region)
    ensures RegionsNeed(rs + [r]) == RegionsNeed(rs) + RegionNeeds(r)
  {
  }

  // What a list of regions says about page v.
  function Fixed(rs: seq<Region>, v: nat): Pte {
    if rs == [] then ZERO_PTE
    else
      var r := rs[|rs| - 1];
      if In(r, v) then Pte(r.perm + {V}, PageOf(r.pa) + (v - PageOf(r.va)))
      else Fixed(rs[..|rs| - 1], v)
  }

  // The page table at root maps these regions and nothing else.
  ghost predicate Shows(s: Snap, root: nat, rs: seq<Region>) {
    IsRoot(s.loc, root) && forall v: nat | v < VPNS :: Entry(s.pt, root, v) == Fixed(rs, v)
  }

  ghost predicate Clear(rs: seq<Region>, r: Region) {
    forall v: nat | In(r, v) :: Fixed(rs, v) == ZERO_PTE
  }

  lemma ShowsMore(s: Snap, s': Snap, root: nat, rs: seq<Region>, r: Region)
    requires Shows(s, root, rs) && RegionOk(r)
    requires MapsRun(s, s', root, PageOf(r.va), LastPage(r.va, r.size) + 1, r.perm, PageOf(r.pa))
    ensures Shows(s', root, rs + [r])
  {
  }

  // proc_kvmmap; false stands for its panic.
  method ProcKvmmap(m: Memory, root: nat, r: Region, ghost rs: seq<Region>) returns (ok: bool)
    requires m.Inv() && Shows(m.S(), root, rs) && RegionOk(r) && Clear(rs, r)
    modifies m
    ensures m.Inv() && m.used == old(m.used) && Apart(old(m.S()), m.S(), {root})
    ensures if ok then Shows(m.S(), root, rs + [r]) else m.free == {}
    ensures Enough(ok, RegionNeeds(r), old(m.free), m.free)
  {
    hide RangeLacks, Good, Shows, Fixed, Clear, RegionOk, Step, MappedRun;
    hide Unmapped, Apart, IsRoot, LeafPerm, PageOf, LastPage, Missing;
    ghost var s := m.S();
    RegionFacts(s, root, rs, r);
    RangeLacksBound(s, root, PageOf(r.va), LastPage(r.va, r.size) + 1);
    var res;
    ghost var stop;
    res, stop := MapPages(m, root, r.va, r.size, r.pa, r.perm);
    MapApart(s, m.S(), root, PageOf(r.va), stop, r.perm, PageOf(r.pa));
    if res.Mapped? {
      ShowsMore(s, m.S(), root, rs, r);
    } else {
      NoRemap(s, root, rs, r, stop);
    }
    ok := res.Mapped?;
  }

  lemma RegionFacts(s: Snap, root: nat, rs: seq<Region>, r: Region)
    requires Shows(s, root, rs) && RegionOk(r)
    ensures IsRoot(s.loc, root) && LeafPerm(r.perm) && PageOf(r.va) <= LastPage(r.va, r.size)
  {
  }

  lemma MapApart(s: Snap, s': Snap, root: nat, lo: nat, hi: nat, perm: set<Flag>, ppn: nat)
    requires MapsRun(s, s', root, lo, hi, perm, ppn)
    ensures s'.used == s.used && Apart(s, s', {root})
  {
  }

  // Nothing is mapped in a clear region, so mapping it cannot panic.
  lemma NoRemap(s: Snap, root: nat, rs: seq<Region>, r: Region, stop: nat)
    requires Shows(s, root, rs) && RegionOk(r) && Clear(rs, r)
    requires PageOf(r.va) <= stop <= LastPage(r.va, r.size)
    ensures stop < MAXVPN && !Present(Entry(s.pt, root, stop))
  {
  }

  /* The layout of the kernel's address space. */

  const TRAMPOLINE: nat := 0x3f_ffff_f000    // the topmost page

  datatype Layout = Layout(uart: nat, virtio: nat, plic: nat, kernbase: nat, etext: nat, physstop: nat,
                           trampoline: nat)

  // Each kernel stack has an invalid page below it.
  function Kstack(i: nat): int {
    TRAMPOLINE - (i + 1) * 8192
  }

  // The devices, the kernel and the kernel stacks of nproc processes lie one after
  // the other, the PLIC lowest.
  predicate LayoutOk(l: Layout, nproc: nat) {
    && l.plic % 4096 == l.uart % 4096 == l.virtio % 4096 == 0
    && l.kernbase % 4096 == l.etext % 4096 == l.physstop % 4096 == 0
    && l.plic + 0x40_0000 <= l.uart && l.uart + 4096 <= l.virtio && l.virtio + 4096 <= l.kernbase
    && l.kernbase < l.etext < l.physstop && l.physstop + 8192 * nproc < TRAMPOLINE
    && 8192 <= l.plic <= 0x8000_0000
  }

  // The regions of proc_kvminit, in its order; the last one is the kernel stack,
  // which allocproc adds.
  function KernelRegion(l: Layout, j: nat): Region
    requires j < 6 && l.kernbase <= l.etext <= l.physstop
  {
    if j == 0 then Region(l.uart, l.uart, PGSIZE, {R, W})
    else if j == 1 then Region(l.virtio, l.virtio, PGSIZE, {R, W})
    else if j == 2 then Region(l.plic, l.plic, 0x40_0000, {R, W})
    else if j == 3 then Region(l.kernbase, l.kernbase, l.etext - l.kernbase, {R, X})
    else if j == 4 then Region(l.etext, l.etext, l.physstop - l.etext, {R, W})
    else Region(TRAMPOLINE, l.trampoline, PGSIZE, {R, X})
  }

  function KernelRegions(l: Layout): seq<Region>
    requires l.kernbase <= l.etext <= l.physstop
  {
    [KernelRegion(l, 0), KernelRegion(l, 1), KernelRegion(l, 2),
     KernelRegion(l, 3), KernelRegion(l, 4), KernelRegion(l, 5)]
  }

  function StackRegion(i: nat, pa: nat): Region
    requires Kstack(i) >= 0
  {
    Region(Kstack(i), pa, PGSIZE, {R, W})
  }

  predicate Separate(a: Region, b: Region) {
    LastPage(a.va, a.size) < PageOf(b.va) || LastPage(b.va, b.size) < PageOf(a.va)
  }

  lemma {:induction false} FixedElsewhere(rs: seq<Region>, v: nat)
    requires forall j | 0 <= j < |rs| :: !In(rs[j], v)
    ensures Fixed(rs, v) == ZERO_PTE
  {
    if rs != [] {
      FixedElsewhere(rs[..|rs| - 1], v);
    }
  }

  // A page that is in the j-th region, and in none after it.
  lemma {:induction false} FixedAt(rs: seq<Region>, j: nat, v: nat)
    requires j < |rs| && In(rs[j], v) && forall k | j < k < |rs| :: !In(rs[k], v)
    ensures Fixed(rs, v) == Pte(rs[j].perm + {V}, PageOf(rs[j].pa) + (v - PageOf(rs[j].va)))
  {
    if j < |rs| - 1 {
      FixedAt(rs[..|rs| - 1], j, v);
    }
  }

  lemma ClearIf(rs: seq<Region>, r: Region)
    requires forall j | 0 <= j < |rs| :: Separate(rs[j], r)
    ensures Clear(rs, r)
  {
    forall v: nat | In(r, v)
      ensures Fixed(rs, v) == ZERO_PTE
    {
      FixedElsewhere(rs, v);
    }
  }

  lemma KernelRegionsFit(l: Layout, n: nat, j: nat)
    requires LayoutOk(l, n) && j < 6
    ensures RegionOk(KernelRegion(l, j)) && l.plic <= KernelRegion(l, j).va
    ensures forall k: nat | k < j :: Separate(KernelRegion(l, k), KernelRegion(l, j))
  {
  }

  // What the kernel has at page v: its text can be executed, the devices and the rest
  // of memory written, each page at its own address; the trampoline is on top.
  function KernelPte(l: Layout, v: nat): Pte {
    if l.kernbase / 4096 <= v < l.etext / 4096 then Pte({V, R, X}, v)
    else if || l.etext / 4096 <= v < l.physstop / 4096 || l.plic / 4096 <= v < l.plic / 4096 + 0x400
            || v == l.uart / 4096 || v == l.virtio / 4096
    then Pte({V, R, W}, v)
    else if v == MAXVPN - 1 then Pte({V, R, X}, l.trampoline / 4096)
    else ZERO_PTE
  }

  // The regions put exactly that there.
  lemma RegionsMap(l: Layout, n: nat, v: nat)
    requires LayoutOk(l, n)
    ensures Fixed(KernelRegions(l), v) == KernelPte(l, v)
  {
    hide KernelRegion, KernelRegions, Fixed, In;
    RegionPages(l, n, v);
    if j: nat :| j < 6 && In(KernelRegion(l, j), v) {
      OneRegion(l, n, j, v);
      RegionPerm(l, j);
      assert {R, X} + {V} == {V, R, X} && {R, W} + {V} == {V, R, W};
    } else {
      NoRegion(l, v);
    }
  }

  lemma RegionPages(l: Layout, n: nat, v: nat)
    requires LayoutOk(l, n)
    ensures In(KernelRegion(l, 0), v) <==> v == l.uart / 4096
    ensures In(KernelRegion(l, 1), v) <==> v == l.virtio / 4096
    ensures In(KernelRegion(l, 2), v) <==> l.plic / 4096 <= v < l.plic / 4096 + 0x400
    ensures In(KernelRegion(l, 3), v) <==> l.kernbase / 4096 <= v < l.etext / 4096
    ensures In(KernelRegion(l, 4), v) <==> l.etext / 4096 <= v < l.physstop / 4096
    ensures In(KernelRegion(l, 5), v) <==> v == MAXVPN - 1
  {
  }

  lemma RegionPerm(l: Layout, j: nat)
    requires j < 6 && l.kernbase <= l.etext <= l.physstop
    ensures KernelRegion(l, j).perm == if j == 3 || j == 5 then {R, X} else {R, W}
    ensures if j == 5 then KernelRegion(l, j).pa == l.trampoline && PageOf(KernelRegion(l, j).va) == MAXVPN - 1
            else KernelRegion(l, j).pa == KernelRegion(l, j).va
  {
  }

  lemma OneRegion(l: Layout, n: nat, j: nat, v: nat)
    requires LayoutOk(l, n) && j < 6 && In(KernelRegion(l, j), v)
    ensures var r := KernelRegion(l, j);
            Fixed(KernelRegions(l), v) == Pte(r.perm + {V}, PageOf(r.pa) + (v - PageOf(r.va)))
  {
    hide KernelRegion, Fixed, In, Separate, RegionOk;
    forall k: nat | j < k < 6
      ensures !In(KernelRegion(l, k), v)
    {
      KernelRegionsFit(l, n, k);
      NotInBoth(KernelRegion(l, j), KernelRegion(l, k), v);
    }
    FixedAt(KernelRegions(l), j, v);
  }

  lemma NoRegion(l: Layout, v: nat)
    requires l.kernbase <= l.etext <= l.physstop && forall j: nat | j < 6 :: !In(KernelRegion(l, j), v)
    ensures Fixed(KernelRegions(l), v) == ZERO_PTE
  {
    hide KernelRegion, Fixed, In;
    FixedElsewhere(KernelRegions(l), v);
  }

  lemma NotInBoth(a: Region, b: Region, v: nat)
    requires (Separate(a, b) || Separate(b, a)) && In(a, v)
    ensures !In(b, v)
  {
  }

  lemma StackFits(l: Layout, n: nat, i: nat, pa: nat, k: nat)
    requires LayoutOk(l, n) && i < n && k < 6
    ensures Kstack(i) >= 0 && RegionOk(StackRegion(i, pa)) && l.plic <= Kstack(i)
    ensures Separate(KernelRegion(l, k), StackRegion(i, pa))
  {
  }

  // A new page table at root, from the state s0 on, maps these regions so far.
  ghost predicate Building(s0: Snap, s: Snap, root: nat, rs: seq<Region>) {
    && Shows(s, root, rs) && NoFrames(s, root) && Labelled(s) && Apart(s0, s, {root})
    && root !in s0.loc && root != 0
  }

  lemma LabelledApart(s: Snap, s': Snap, roots: set<nat>)
    requires Labelled(s) && Apart(s, s', roots)
    requires forall p | p in s'.used && Of(s'.used[p], roots) :: IsRoot(s'.loc, s'.used[p].root)
    ensures Labelled(s')
  {
  }

  lemma BuildMore(s0: Snap, s: Snap, s': Snap, root: nat, rs: seq<Region>, r: Region)
    requires Building(s0, s, root, rs) && Apart(s, s', {root}) && s'.used == s.used
    requires Shows(s', root, rs + [r])
    ensures Building(s0, s', root, rs + [r])
  {
  }

  lemma BuildStart(s0: Snap, s: Snap, root: nat)
    requires Blank(s, root) && root !in s0.loc && Apart(s0, s, {root}) && Labelled(s) && root != 0
    ensures Building(s0, s, root, [])
  {
  }

  // One more region of a page table being built.
  method MapRegion(m: Memory, root: nat, r: Region, ghost s0: Snap, ghost rs: seq<Region>) returns (ok: bool)
    requires m.Inv() && Building(s0, m.S(), root, rs) && RegionOk(r) && forall j | 0 <= j < |rs| :: Separate(rs[j], r)
    modifies m
    ensures m.Inv() && (if ok then Building(s0, m.S(), root, rs + [r]) else m.free == {})
    ensures Enough(ok, RegionNeeds(r), old(m.free), m.free)
  {
    hide RegionNeeds, Good, Shows, NoFrames, Labelled, Apart, RegionOk, Separate, Clear;
    ghost var s := m.S();
    ClearIf(rs, r);
    ok := ProcKvmmap(m, root, r, rs);
    if ok {
      BuildMore(s0, s, m.S(), root, rs, r);
    }
  }

  lemma PrefixFits(l: Layout, n: nat, j: nat)
    requires LayoutOk(l, n) && j < 6
    ensures |KernelRegions(l)| == 6 && RegionOk(KernelRegion(l, j)) && KernelRegions(l)[j] == KernelRegion(l, j)
    ensures forall k | 0 <= k < j :: Separate(KernelRegions(l)[..j][k], KernelRegion(l, j))
    ensures KernelRegions(l)[..j] + [KernelRegion(l, j)] == KernelRegions(l)[..j + 1]
  {
  }

  lemma NextNeeds(l: Layout, n: nat, j: nat)
    requires LayoutOk(l, n) && j < 6
    ensures |KernelRegions(l)| == 6
    ensures RegionsNeed(KernelRegions(l)[..j + 1])
         == RegionsNeed(KernelRegions(l)[..j]) + RegionNeeds(KernelRegion(l, j))
  {
    hide RegionNeeds, RegionsNeed, KernelRegions, KernelRegion, RegionOk, Separate;
    PrefixFits(l, n, j);
    NeedsAppend(KernelRegions(l)[..j], KernelRegion(l, j));
  }

  lemma {:induction false} PrefixNeeds(l: Layout, n: nat, j: nat)
    requires LayoutOk(l, n) && j <= 6
    ensures |KernelRegions(l)| == 6 && RegionsNeed(KernelRegions(l)[..j]) <= RegionsNeed(KernelRegions(l))
    decreases 6 - j
  {
    hide RegionNeeds, RegionsNeed, KernelRegion;
    if j < 6 {
      PrefixNeeds(l, n, j + 1);
      NextNeeds(l, n, j);
    } else {
      assert KernelRegions(l)[..6] == KernelRegions(l);
    }
  }

  method MapNth(m: Memory, root: nat, l: Layout, j: nat, ghost n: nat, ghost s0: Snap) returns (ok: bool)
    requires m.Inv() && LayoutOk(l, n) && j < 6 && Building(s0, m.S(), root, KernelRegions(l)[..j])
    modifies m
    ensures m.Inv() && (if ok then Building(s0, m.S(), root, KernelRegions(l)[..j + 1]) else m.free == {})
    ensures Enough(ok, RegionsNeed(KernelRegions(l)[..j + 1]) - RegionsNeed(KernelRegions(l)[..j]), old(m.free), m.free)
    ensures RegionsNeed(KernelRegions(l)[..j + 1]) <= RegionsNeed(KernelRegions(l))
  {
    hide RegionNeeds, RegionsNeed, Good, Building, RegionOk, Separate, KernelRegions, KernelRegion;
    PrefixFits(l, n, j);
    NextNeeds(l, n, j);
    PrefixNeeds(l, n, j + 1);
    ok := MapRegion(m, root, KernelRegion(l, j), s0, KernelRegions(l)[..j]);
  }

  // proc_kvminit. Running out of memory is a panic (root 0).
  method ProcKvminit(m: Memory, l: Layout, ghost n: nat) returns (root: nat)
    requires m.Inv() && Labelled(m.S()) && LayoutOk(l, n)
    modifies m
    ensures m.Inv() && (if root != 0 then Building(old(m.S()), m.S(), root, KernelRegions(l)) else m.free == {})
    ensures root != 0 ==>
              && (forall v: nat | l.kernbase / 4096 <= v < l.etext / 4096 :: Entry(m.pt, root, v) == Pte({V, R, X}, v))
              && (forall v: nat | l.etext / 4096 <= v < l.physstop / 4096 :: Entry(m.pt, root, v) == Pte({V, R, W}, v))
              && (forall v: nat | l.plic / 4096 <= v < l.plic / 4096 + 0x400 ::
                    Entry(m.pt, root, v) == Pte({V, R, W}, v))
              && Entry(m.pt, root, l.uart / 4096) == Pte({V, R, W}, l.uart / 4096)
              && Entry(m.pt, root, l.virtio / 4096) == Pte({V, R, W}, l.virtio / 4096)
              && Entry(m.pt, root, MAXVPN - 1) == Pte({V, R, X}, l.trampoline / 4096)
              && (forall v: nat | v < VPNS && !(l.kernbase / 4096 <= v < l.physstop / 4096)
                                  && !(l.plic / 4096 <= v < l.plic / 4096 + 0x400)
                                  && v != l.uart / 4096 && v != l.virtio / 4096 && v != MAXVPN - 1 ::
                    Entry(m.pt, root, v) == ZERO_PTE)
    ensures root != 0 ==> forall v: nat | v < VPNS :: Entry(m.pt, root, v) == KernelPte(l, v)
    ensures Enough(root != 0, 1 + RegionsNeed(KernelRegions(l)), old(m.free), m.free)
  {
    hide RegionsNeed, Good, Building, KernelRegions, KernelRegion, Apart, Blank, Labelled, Entry, Shows;
    ghost var s := m.S();
    var k := UvmCreate(m);
    if k == 0 {
      return 0;
    }
    BuildStart(s, m.S(), k);
    RegionsEnds(l, n);
    var ok := MapNth(m, k, l, 0, n, s);
    if !ok { return 0; }
    ok := MapNth(m, k, l, 1, n, s);
    if !ok { return 0; }
    ok := MapNth(m, k, l, 2, n, s);
    if !ok { return 0; }
    ok := MapNth(m, k, l, 3, n, s);
    if !ok { return 0; }
    ok := MapNth(m, k, l, 4, n, s);
    if !ok { return 0; }
    ok := MapNth(m, k, l, 5, n, s);
    if !ok { return 0; }
    BuiltNotZero(s, m.S(), k, KernelRegions(l));
    KernelShown(m.S(), k, l, n);
    root := k;
  }

  lemma KernelShown(s: Snap, root: nat, l: Layout, n: nat)
    requires LayoutOk(l, n) && Shows(s, root, KernelRegions(l))
    ensures forall v: nat | v < VPNS :: Entry(s.pt, root, v) == KernelPte(l, v)
    ensures l.physstop / 4096 < MAXVPN && l.kernbase / 4096 < l.etext / 4096 < l.physstop / 4096
  {
    hide KernelPte, KernelRegions, Fixed, Entry;
    forall v: nat | v < VPNS
      ensures Entry(s.pt, root, v) == KernelPte(l, v)
    {
      RegionsMap(l, n, v);
    }
  }

  lemma BuiltNotZero(s0: Snap, s: Snap, root: nat, rs: seq<Region>)
    requires Building(s0, s, root, rs)
    ensures root != 0 && Shows(s, root, rs)
  {
  }

  lemma RegionsEnds(l: Layout, n: nat)
    requires LayoutOk(l, n)
    ensures KernelRegions(l)[..0] == [] && KernelRegions(l)[..6] == KernelRegions(l) && |KernelRegions(l)| == 6
    ensures RegionsNeed(KernelRegions(l)[..0]) == 0
  {
  }
}
