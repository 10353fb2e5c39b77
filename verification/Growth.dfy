/** What growproc, exec, fork and userinit do to the page tables of a process. */
module Growth {
  import opened Sv39
  import opened Vm
  import opened Uvm
  import opened UserMem
  import opened CopyPage
  import opened Isolation
  import opened Kvm
  import opened UserTables
  import opened Mirror
  import opened Processes

  /* Copying from the user to the kernel page table. */

  lemma CopiedSame(s: Snap, s': Snap, u: nat, pages: set<nat>, mask: set<Flag>)
    requires forall v | v in pages :: Entry(s'.pt, u, v) == Entry(s.pt, u, v)
    ensures Copied(s', u, pages, mask) == Copied(s, u, pages, mask)
  {
  }

  lemma CopiedJoin(s: Snap, u: nat, a: set<nat>, b: set<nat>, mask: set<Flag>)
    ensures Copied(s, u, a, mask) + Copied(s, u, b, mask) == Copied(s, u, a + b, mask)
  {
  }

  lemma CopiedLess(s: Snap, u: nat, a: set<nat>, b: set<nat>, mask: set<Flag>)
    ensures Copied(s, u, a, mask) - b == Copied(s, u, a - b, mask)
  {
  }

  // Enough of ProcOk to copy: the image has n pages, mp of them mirrored.
  ghost predicate Mirrors(c: Config, s: Snap, i: nat, u: nat, k: nat, tf: nat, n: nat, mp: set<nat>)
    requires ConfigOk(c) && i < |c.kstacks|
  {
    && u != k && u != 0 && k != 0 && n <= Lim(c) && mp <= Range(0, n)
    && UserTable(s, u, n, tf, PageOf(c.l.trampoline), true)
    && KernelTable(s, k, Lim(c), Regions(c, i), Copied(s, u, mp, c.mask))
  }

  lemma MirrorsIs(c: Config, s: Snap, i: nat, p: Proc, mp: set<nat>)
    requires ConfigOk(c) && i < |c.kstacks|
    ensures ProcOk(c, s, i, p, mp) <==> Mirrors(c, s, i, p.pagetable, p.kpagetable, p.trapframe, Pages(p.sz), mp)
  {
  }

  // The user page table changed, but not the pages mirrored.
  lemma MirrorsUser(c: Config, s: Snap, s': Snap, i: nat, u: nat, k: nat, tf: nat, n: nat, n': nat, mp: set<nat>)
    requires ConfigOk(c) && i < |c.kstacks| && Mirrors(c, s, i, u, k, tf, n, mp)
    requires UserTable(s', u, n', tf, PageOf(c.l.trampoline), true) && Apart(s, s', {u})
    requires n' <= Lim(c) && mp <= Range(0, n')
    requires forall v | v in mp :: Entry(s'.pt, u, v) == Entry(s.pt, u, v)
    ensures Mirrors(c, s', i, u, k, tf, n', mp)
  {
  }

  lemma MirrorsCopied(c: Config, s: Snap, s': Snap, i: nat, u: nat, k: nat, tf: nat, n: nat, mp: set<nat>,
                      lo: nat, hi: nat)
    requires ConfigOk(c) && i < |c.kstacks| && Mirrors(c, s, i, u, k, tf, n, mp)
    requires Copies(s, s', u, k, lo, hi, c.mask) && hi <= n
    ensures Mirrors(c, s', i, u, k, tf, n, mp + Range(lo, hi)) && Apart(s, s', {k})
  {
    var f := Copied(s, u, mp, c.mask);
    KernelCopies(s, s', u, k, Lim(c), Regions(c, i), f, lo, hi, c.mask);
    CopiedJoin(s, u, mp, Range(lo, hi), c.mask);
    ApartSameUsed(s, s', k, lo, hi);
    UserRoot(s, u, n, tf, PageOf(c.l.trampoline), true);
    ApartSame(s, s', {k}, u);
    UserKept(s, s', u, n, tf, PageOf(c.l.trampoline), true);
    hide UserTable, KernelTable, Regions, Copied, Apart, Entry, Step, Table0, ConfigOk, PageOf, Fixed, Masked;
    assert mp + Range(lo, hi) <= Range(0, n);
    CopiedSame(s, s', u, mp + Range(lo, hi), c.mask) by {
      MpBelow(mp + Range(lo, hi), n, Lim(c));
    }
  }

  lemma MpBelow(mp: set<nat>, n: nat, lim: nat)
    requires mp <= Range(0, n)
    ensures forall v | v in mp :: v < n
  {
  }

  // The tables that the copy of a stretch may take.
  function CopyNeeds(start: nat, sz: nat): nat {
    2 * Blocks(PageOf(start), PageOf(start) + Pages(sz))
  }

  // vmcopypage from a mirrored image: it can only fail for lack of memory.
  method CopyImage(m: Memory, c: Config, ghost i: nat, u: nat, k: nat, ghost tf: nat, ghost n: nat, start: nat, sz: nat,
                   ghost mp: set<nat>) returns (ok: bool)
    requires m.Inv() && ConfigOk(c) && i < |c.kstacks| && Mirrors(c, m.S(), i, u, k, tf, n, mp)
    requires PageOf(start) + Pages(sz) <= n
    modifies m
    ensures m.Inv()
    ensures if ok then Mirrors(c, m.S(), i, u, k, tf, n, mp + Range(PageOf(start), PageOf(start) + Pages(sz)))
                       && Apart(old(m.S()), m.S(), {k})
            else m.free == {}
    ensures Enough(ok, CopyNeeds(start, sz), old(m.free), m.free)
  {
    hide RangeLacks, Blocks, Good, ConfigOk, Mirrors, Apart, PageOf, Pages, Range, Touched, AllReadable;
    hide MaskOk, Copies, IsRoot, Missing;
    ghost var s := m.S();
    RangeLacksBound(s, k, PageOf(start), PageOf(start) + Pages(sz));
    CopyReady(c, s, i, u, k, tf, n, mp, PageOf(start), PageOf(start) + Pages(sz));
    ghost var stop;
    ok, stop := VmCopyPage(m, u, k, start, sz, c.mask);
    if ok {
      MirrorsCopied(c, s, m.S(), i, u, k, tf, n, mp, PageOf(start), PageOf(start) + Pages(sz));
    } else {
      CopyThere(c, s, i, u, k, tf, n, mp, start, sz, stop);
    }
  }

  lemma CopyReady(c: Config, s: Snap, i: nat, u: nat, k: nat, tf: nat, n: nat, mp: set<nat>, lo: nat, hi: nat)
    requires ConfigOk(c) && i < |c.kstacks| && Mirrors(c, s, i, u, k, tf, n, mp) && hi <= n
    ensures IsRoot(s.loc, u) && IsRoot(s.loc, k) && u != k && MaskOk(c.mask) && AllReadable(s, u, lo, hi)
  {
  }

  lemma CopyThere(c: Config, s: Snap, i: nat, u: nat, k: nat, tf: nat, n: nat, mp: set<nat>, start: nat, sz: nat,
                  stop: nat)
    requires ConfigOk(c) && i < |c.kstacks| && Mirrors(c, s, i, u, k, tf, n, mp)
    requires PageOf(start) + Pages(sz) <= n && Touched(start, sz, stop)
    ensures !Missing(s, u, stop)
  {
  }

  /* growproc */

  lemma PagesAdd(a: nat, b: nat)
    ensures PageOf(a) + Pages(b) <= Pages(a + b) && Pages(a) <= Pages(a + b)
  {
  }

  lemma MirrorsGrown(c: Config, s: Snap, s': Snap, i: nat, u: nat, k: nat, tf: nat, n: nat, n': nat, mp: set<nat>,
                     f: Rights)
    requires ConfigOk(c) && i < |c.kstacks| && Mirrors(c, s, i, u, k, tf, n, mp)
    requires Grows(s, s', u, n, n', f) && RightsOk(f, n, n') && n <= n' <= Lim(c)
    ensures Mirrors(c, s', i, u, k, tf, n', mp) && Apart(s, s', {u})
  {
    LimTop(c, i);
    UserGrown(s, s', u, n, n', f, tf, PageOf(c.l.trampoline), true);
    ApartGrows(s, s', u, n, n', f);
    MpBelow(mp, n, n');
    forall v | v in mp
      ensures Entry(s'.pt, u, v) == Entry(s.pt, u, v)
    {
      StepSame(s, s', u, n, n', v);
    }
    hide UserTable, KernelTable, Regions, Copied, Apart, Entry, Step, Grows, Lim, ConfigOk, PageOf;
    assert mp <= Range(0, n');
    MirrorsUser(c, s, s', i, u, k, tf, n, n', mp);
  }

  lemma LimTop(c: Config, i: nat)
    requires ConfigOk(c) && i < |c.kstacks|
    ensures Lim(c) <= TOP
  {
  }

  lemma MirrorsQuiet(c: Config, s: Snap, s': Snap, i: nat, u: nat, k: nat, tf: nat, n: nat, mp: set<nat>)
    requires ConfigOk(c) && i < |c.kstacks| && Mirrors(c, s, i, u, k, tf, n, mp) && Quiet(s, s', u)
    ensures Mirrors(c, s', i, u, k, tf, n, mp) && Apart(s, s', {u})
  {
    UserRoot(s, u, n, tf, PageOf(c.l.trampoline), true);
    ApartQuiet(s, s', u);
    QuietSame(s, s', u);
    UserKept(s, s', u, n, tf, PageOf(c.l.trampoline), true);
    hide UserTable, KernelTable, Regions, Copied, Apart, Entry, Quiet, ConfigOk, PageOf;
    MpBelow(mp, n, n);
    MirrorsUser(c, s, s', i, u, k, tf, n, n, mp);
  }

  // The frames and tables of the user memory from sz to sz'.
  function ImageNeeds(sz: nat, sz': nat): int {
    if sz <= sz' then Pages(sz') - Pages(sz) + 2 * Blocks(Pages(sz), Pages(sz')) else 0
  }

  lemma UvmNeeds(s: Snap, u: nat, sz: nat, sz': nat)
    requires sz <= sz'
    ensures Needs(s, u, Pages(sz), Pages(sz')) <= ImageNeeds(sz, sz')
  {
  }

  // Pages lo to hi are the user's to read, write and execute.
  ghost predicate AllUser(pt: Heap, u: nat, lo: nat, hi: nat) {
    forall v: nat | lo <= v < hi :: Entry(pt, u, v).flags == {V, R, W, X, U}
  }

  // Growing adds such pages and keeps the others.
  lemma GrownUser(s: Snap, s': Snap, u: nat, lo: nat, hi: nat)
    requires Grows(s, s', u, lo, hi, All) && hi <= TOP
    ensures AllUser(s'.pt, u, lo, hi)
    ensures forall v: nat | v < VPNS && !(lo <= v < hi) :: Entry(s'.pt, u, v) == Entry(s.pt, u, v)
  {
    hide Entry, Table0;
  }

  // The first n pages of root translate as before.
  ghost predicate SameEntries(pt: Heap, pt': Heap, root: nat, n: nat) {
    forall v: nat | v < n :: Entry(pt', root, v) == Entry(pt, root, v)
  }

  // These numbers are little more than the new pages: two tables for each 512 pages.
  lemma NeedsAre(sz: nat, sz': nat)
    requires sz <= sz'
    ensures var n := (sz' + 4095) / 4096 - (sz + 4095) / 4096;
            0 <= ImageNeeds(sz, sz') <= n + 2 * (n / 512 + 2)
    ensures CopyNeeds(sz, sz' - sz) <= 2 * ((sz' - sz + 4095) / 4096 / 512 + 2)
  {
  }

  // growproc for n > 0, once the size test has passed.
  method GrowTables(m: Memory, c: Config, ghost i: nat, p: Proc, n: nat, ghost mp: set<nat>)
    returns (r: Outcome, sz: nat)
    requires m.Inv() && ConfigOk(c) && i < |c.kstacks|
    requires Mirrors(c, m.S(), i, p.pagetable, p.kpagetable, p.trapframe, Pages(p.sz), mp)
    requires n > 0 && Pages(p.sz + n) <= Lim(c)
    modifies m
    ensures m.Inv() && sz == (if r.Failed? then p.sz else p.sz + n)
    ensures r.Done? ==> Mirrors(c, m.S(), i, p.pagetable, p.kpagetable, p.trapframe, Pages(sz),
                                mp + Range(PageOf(p.sz), PageOf(p.sz) + Pages(n)))
    ensures r.Failed? ==> Mirrors(c, m.S(), i, p.pagetable, p.kpagetable, p.trapframe, Pages(sz), mp)
    ensures !r.Panics? ==> SameEntries(old(m.pt), m.pt, p.pagetable, Pages(p.sz))
    ensures r.Done? ==> AllUser(m.pt, p.pagetable, Pages(p.sz), Pages(p.sz + n))
    ensures !r.Panics? ==> Apart(old(m.S()), m.S(), {p.pagetable, p.kpagetable})
    ensures r.Panics? ==> m.free == {}
    ensures Enough(r.Done?, ImageNeeds(p.sz, p.sz + n) + CopyNeeds(p.sz, n), old(m.free), m.free)
    ensures r.Failed? ==> |old(m.free)| < ImageNeeds(p.sz, p.sz + n)
  {
    hide Needs, ImageNeeds, CopyNeeds;
    hide Good, ConfigOk, Mirrors, Apart, PageOf, Pages, Range, IsRoot, Vacant, Grows, Quiet, Lim, RightsOk, FlagsAt;
    hide SameEntries, AllUser;
    ghost var s := m.S();
    var u, k := p.pagetable, p.kpagetable;
    PagesAdd(p.sz, n);
    GrowReady(c, s, i, u, k, p.trapframe, Pages(p.sz), mp, Pages(p.sz + n));
    UvmNeeds(s, u, p.sz, p.sz + n);
    var panics;
    sz, panics := UvmAlloc(m, u, p.sz, p.sz + n);
    ghost var t := m.S();
    if sz == 0 {
      MirrorsQuiet(c, s, t, i, u, k, p.trapframe, Pages(p.sz), mp);
      ApartWiden(s, t, {u}, {u, k});
      QuietKeeps(s, t, u, Pages(p.sz));
      return Failed, p.sz;
    }
    AllRights(Pages(p.sz), Pages(sz));
    MirrorsGrown(c, s, t, i, u, k, p.trapframe, Pages(p.sz), Pages(sz), mp, All);
    // the part that was added is copied
    assert sz - n == p.sz;
    var ok := CopyImage(m, c, i, u, k, p.trapframe, Pages(sz), sz - n, n, mp);
    if !ok {
      return Panics, sz;
    }
    TwoStages(s, t, m.S(), u, k);
    GrownKeeps(s, t, m.S(), u, k, Pages(p.sz), Pages(sz));
    r := Done;
  }

  lemma QuietKeeps(s: Snap, s': Snap, u: nat, n: nat)
    requires Quiet(s, s', u) && IsRoot(s.loc, u) && n <= VPNS
    ensures SameEntries(s.pt, s'.pt, u, n)
  {
  }

  // The pages there were translate as before, and the new ones are the user's.
  lemma GrownKeeps(s: Snap, t: Snap, s': Snap, u: nat, k: nat, lo: nat, hi: nat)
    requires Grows(s, t, u, lo, hi, All) && lo <= hi <= TOP && Apart(t, s', {k}) && u != k
    ensures SameEntries(s.pt, s'.pt, u, lo) && AllUser(s'.pt, u, lo, hi)
  {
    GrownUser(s, t, u, lo, hi);
    ApartSame(t, s', {k}, u);
    hide Apart, Entry, Step;
  }

  lemma GrowReady(c: Config, s: Snap, i: nat, u: nat, k: nat, tf: nat, n: nat, mp: set<nat>, hi: nat)
    requires ConfigOk(c) && i < |c.kstacks| && Mirrors(c, s, i, u, k, tf, n, mp) && hi <= Lim(c) && n <= hi
    ensures IsRoot(s.loc, u) && hi <= TOP && Min(hi, TOP) == hi && Vacant(s, u, n, hi) && u != k
  {
  }

  // A kernel page table maps a page below the PLIC exactly if it mirrors it.
  lemma MirroredPresent(c: Config, s: Snap, i: nat, u: nat, k: nat, tf: nat, n: nat, mp: set<nat>, v: nat)
    requires ConfigOk(c) && i < |c.kstacks| && Mirrors(c, s, i, u, k, tf, n, mp) && v < n
    ensures Present(Entry(s.pt, k, v)) <==> v in mp
  {
  }

  // growproc for n < 0: the frames are gone from the user page table, then the
  // pages from the kernel page table, as far as `stop`.
  lemma MirrorsShrunk(c: Config, s: Snap, t: Snap, s': Snap, i: nat, u: nat, k: nat, tf: nat, n: nat, lo: nat,
                      mp: set<nat>)
    requires ConfigOk(c) && i < |c.kstacks| && Mirrors(c, s, i, u, k, tf, n, mp) && lo <= n
    requires Unmaps(s, t, u, lo, n, true) && Unmaps(t, s', k, lo, n, false)
    ensures Mirrors(c, s', i, u, k, tf, lo, mp - Range(lo, n)) && Apart(s, s', {u, k})
  {
    var tramp := PageOf(c.l.trampoline);
    var f := Copied(s, u, mp, c.mask);
    UserRoot(s, u, n, tf, tramp, true);
    UserShrunk(s, t, u, n, lo, tf, tramp, true);
    ApartUnmaps(s, t, u, lo, n, true);
    ApartUnmaps(t, s', k, lo, n, false);
    TwoStages(s, t, s', u, k);
    KernelKept(s, t, {u}, k, Lim(c), Regions(c, i), f);
    KernelUnmaps(t, s', k, Lim(c), Regions(c, i), f, lo, n);
    ApartSame(t, s', {k}, u);
    UserKept(t, s', u, lo, tf, tramp, true);
    CopiedLess(s, u, mp, Range(lo, n), c.mask);
    MpBelow(mp, n, n);
    forall v | v in mp - Range(lo, n)
      ensures Entry(s'.pt, u, v) == Entry(s.pt, u, v)
    {
      ShrunkKeeps(s, t, s', u, k, n, lo, v);
    }
    hide UserTable, KernelTable, Regions, Copied, Apart, Entry, Step, Unmaps, UserSame, Lim, ConfigOk, PageOf;
    CopiedSame(s, s', u, mp - Range(lo, n), c.mask);
  }

  lemma ShrunkKeeps(s: Snap, t: Snap, s': Snap, u: nat, k: nat, n: nat, lo: nat, v: nat)
    requires v < n <= TOP && v !in Range(lo, n) && Unmaps(s, t, u, lo, n, true) && UserSame(t, s', u)
    ensures Entry(s'.pt, u, v) == Entry(s.pt, u, v)
  {
  }

  lemma ShrinkStuck(c: Config, s: Snap, t: Snap, i: nat, u: nat, k: nat, tf: nat, n: nat, lo: nat, mp: set<nat>)
    requires ConfigOk(c) && i < |c.kstacks| && Mirrors(c, s, i, u, k, tf, n, mp) && lo <= n
    requires Unmaps(s, t, u, lo, n, true)
    ensures IsRoot(t.loc, k)
    ensures forall v: nat | lo <= v < n :: Missing(t, k, v) <==> v !in mp
  {
  }

  lemma KernelRoot(s: Snap, k: nat, lim: nat, rs: seq<Region>, f: map<nat, Pte>)
    requires KernelTable(s, k, lim, rs, f)
    ensures IsRoot(s.loc, k) && NoFrames(s, k)
  {
  }

  // growproc for n < 0. It panics exactly if a page to be unmapped was not mirrored.
  method ShrinkTables(m: Memory, c: Config, ghost i: nat, p: Proc, newsz: nat, ghost mp: set<nat>) returns (r: Outcome)
    requires m.Inv() && ConfigOk(c) && i < |c.kstacks|
    requires Mirrors(c, m.S(), i, p.pagetable, p.kpagetable, p.trapframe, Pages(p.sz), mp)
    requires newsz < p.sz
    modifies m
    ensures m.Inv() && !r.Failed?
    ensures r.Panics? <==> exists v: nat :: Pages(newsz) <= v < Pages(p.sz) && v !in mp
    ensures r.Done? ==> Mirrors(c, m.S(), i, p.pagetable, p.kpagetable, p.trapframe, Pages(newsz),
                                mp - Range(Pages(newsz), Pages(p.sz)))
    ensures r.Done? ==> Apart(old(m.S()), m.S(), {p.pagetable, p.kpagetable})
    ensures r.Done? ==> SameEntries(old(m.pt), m.pt, p.pagetable, Pages(newsz))
  {
    hide Good, ConfigOk, Mirrors, Apart, Pages, Range, IsRoot, Unmaps, Backed, Missing, SameEntries;
    ghost var s := m.S();
    var u, k := p.pagetable, p.kpagetable;
    PagesOrder(newsz, p.sz);
    ShrinkReady(c, s, i, u, k, p.trapframe, Pages(p.sz), mp, Pages(newsz));
    var sz := UvmDealloc(m, u, p.sz, newsz);
    ghost var t := m.S();
    ShrinkStuck(c, s, t, i, u, k, p.trapframe, Pages(p.sz), Pages(newsz), mp);
    // one page after the other is unmapped
    var ok;
    ghost var stop;
    ok, stop := UnmapRange(m, k, Pages(sz), Pages(p.sz), false);
    if !ok {
      return Panics;
    }
    ShrinkAll(t, m.S(), k, Pages(sz), Pages(p.sz));
    MirrorsShrunk(c, s, t, m.S(), i, u, k, p.trapframe, Pages(p.sz), Pages(newsz), mp);
    ShrunkSame(s, t, m.S(), u, k, Pages(p.sz), Pages(newsz));
    r := Done;
  }

  lemma ShrunkSame(s: Snap, t: Snap, s': Snap, u: nat, k: nat, n: nat, lo: nat)
    requires Unmaps(s, t, u, lo, n, true) && Unmaps(t, s', k, lo, n, false) && lo <= n <= MAXVPN && u != k
    ensures SameEntries(s.pt, s'.pt, u, lo)
  {
    ApartUnmaps(t, s', k, lo, n, false);
    ApartSame(t, s', {k}, u);
    hide Apart;
    hide Entry;
    forall v: nat | v < lo
      ensures Entry(t.pt, u, v) == Entry(s.pt, u, v)
    {
      StepSame(s, t, u, lo, n, v);
    }
  }

  lemma ShrinkReady(c: Config, s: Snap, i: nat, u: nat, k: nat, tf: nat, n: nat, mp: set<nat>, lo: nat)
    requires ConfigOk(c) && i < |c.kstacks| && Mirrors(c, s, i, u, k, tf, n, mp)
    ensures IsRoot(s.loc, u) && n <= MAXVPN && Backed(s, u, lo, n) && u != k
  {
  }

  lemma ShrinkAll(t: Snap, s': Snap, k: nat, lo: nat, hi: nat)
    requires Unmaps(t, s', k, lo, hi, false) && (lo < hi ==> hi <= MAXVPN)
    ensures forall v: nat | lo <= v < hi :: !Missing(t, k, v)
  {
  }

  /* exec */

  // The trapframe is handed from the old user page table u to the new one.
  ghost function Handed(s: Snap, tf: nat, u2: nat): Snap {
    s.(used := s.used[tf := Frame(u2, TOP)])
  }

  lemma HandOver(s: Snap, u: nat, n: nat, u2: nat, n2: nat, tf: nat, tramp: nat)
    requires UserTable(s, u, n, tf, tramp, true) && UserTable(s, u2, n2, tf, tramp, false) && u != u2 && Labelled(s)
    ensures tf in s.used
    ensures var t := Handed(s, tf, u2);
            UserTable(t, u, n, tf, tramp, false) && UserTable(t, u2, n2, tf, tramp, true)
            && Labelled(t) && Apart(s, t, {u, u2})
  {
    var t := Handed(s, tf, u2);
    assert tf in s.used && s.used[tf] == Frame(u, TOP);
    assert t.used - {tf} == s.used - {tf};
    UserLoses(s, t, u, n, tf, tramp);
    UserClaims(s, t, u2, n2, tf, tramp);
    UserRoot(s, u2, n2, tf, tramp, false);
    hide UserTable, Entry;
  }

  // The new image has n pages, none of them mirrored yet.
  ghost predicate Unmirrored(c: Config, s: Snap, i: nat, u: nat, k: nat, tf: nat, n: nat)
    requires ConfigOk(c) && i < |c.kstacks|
  {
    && u != k && u != 0 && k != 0 && UserTable(s, u, n, tf, PageOf(c.l.trampoline), true)
    && KernelTable(s, k, Lim(c), Regions(c, i), map[])
  }

  // The image reaches the PLIC. Its copy in the kernel page table has replaced what
  // was mapped there below its end; from there on everything is as it was.
  ghost predicate Overrun(c: Config, s: Snap, i: nat, u: nat, k: nat, tf: nat, n: nat)
    requires ConfigOk(c) && i < |c.kstacks|
  {
    && u != k && u != 0 && k != 0 && Lim(c) < n && UserTable(s, u, n, tf, PageOf(c.l.trampoline), true)
    && KernelTable(s, k, n, Regions(c, i), Copied(s, u, Range(0, n), c.mask))
  }

  // What exec does after the old page table is freed (a) and the old mirror is
  // unmapped (b).
  lemma ExecMirror(c: Config, s: Snap, t: Snap, a: Snap, b: Snap, i: nat, u: nat, k: nat, tf: nat, n: nat, mp: set<nat>,
                   u2: nat, n2: nat)
    requires ConfigOk(c) && i < |c.kstacks| && Mirrors(c, s, i, u, k, tf, n, mp)
    requires u2 != u && u2 != k && u2 != 0
    requires UserTable(t, u2, n2, tf, PageOf(c.l.trampoline), true) && Apart(s, t, {u, u2})
    requires Apart(t, a, {u}) && Gone(a, {u}) && Labelled(a) && Unmaps(a, b, k, 0, n, false)
    ensures Unmirrored(c, b, i, u2, k, tf, n2) && Labelled(b) && Gone(b, {u}) && Apart(s, b, {u, u2, k})
  {
    var tramp := PageOf(c.l.trampoline);
    var f := Copied(s, u, mp, c.mask);
    UserRoot(t, u2, n2, tf, tramp, true);
    ApartUnmaps(a, b, k, 0, n, false);
    ExecApart(s, t, a, b, u, u2, k);
    ApartSame(t, a, {u}, u2);
    UserKept(t, a, u2, n2, tf, tramp, true);
    ApartSame(a, b, {k}, u2);
    UserKept(a, b, u2, n2, tf, tramp, true);
    KernelKept(s, t, {u, u2}, k, Lim(c), Regions(c, i), f);
    KernelKept(t, a, {u}, k, Lim(c), Regions(c, i), f);
    KernelUnmaps(a, b, k, Lim(c), Regions(c, i), f, 0, n);
    KernelRoot(b, k, Lim(c), Regions(c, i), f - Range(0, n));
    hide UserTable, KernelTable, Regions, Apart, Entry, Step, UserSame, Lim, ConfigOk, PageOf, Gone, Labelled;
    assert f - Range(0, n) == map[];
    UnmapsGone(a, b, u, k, n);
  }

  lemma ExecApart(s: Snap, t: Snap, a: Snap, b: Snap, u: nat, u2: nat, k: nat)
    requires Apart(s, t, {u, u2}) && Apart(t, a, {u}) && Apart(a, b, {k})
    ensures Apart(s, b, {u, u2, k})
  {
  }

  lemma UnmapsGone(a: Snap, b: Snap, u: nat, k: nat, n: nat)
    requires Unmaps(a, b, k, 0, n, false) && Gone(a, {u}) && Labelled(a)
    ensures Gone(b, {u}) && Labelled(b)
  {
  }

  lemma ExecStuck(c: Config, s: Snap, t: Snap, a: Snap, i: nat, u: nat, k: nat, tf: nat, n: nat, mp: set<nat>, u2: nat)
    requires ConfigOk(c) && i < |c.kstacks| && Mirrors(c, s, i, u, k, tf, n, mp) && u2 != k
    requires Apart(s, t, {u, u2}) && Apart(t, a, {u})
    ensures IsRoot(a.loc, k)
    ensures forall v: nat | v < n :: Missing(a, k, v) <==> v !in mp
  {
    LimTop(c, i);
    KernelRoot(s, k, Lim(c), Regions(c, i), Copied(s, u, mp, c.mask));
    ApartSame(s, t, {u, u2}, k);
    ApartSame(t, a, {u}, k);
    forall v: nat | v < n
      ensures Missing(a, k, v) <==> v !in mp
    {
      MirroredPresent(c, s, i, u, k, tf, n, mp, v);
      hide UserTable, KernelTable, Entry, Apart, Present;
    }
  }

  lemma KernelCovered(s: Snap, s': Snap, u: nat, k: nat, lim: nat, rs: seq<Region>, n: nat, mask: set<Flag>)
    requires KernelTable(s, k, lim, rs, map[]) && Copies(s, s', u, k, 0, n, mask) && lim < n
    ensures KernelTable(s', k, n, rs, Copied(s, u, Range(0, n), mask))
  {
    hide Entry, Table0, Fixed, Masked;
    forall v: nat | v < VPNS && n <= v
      ensures Entry(s'.pt, k, v) == Entry(s.pt, k, v)
    {
      StepSame(s, s', k, 0, n, v);
    }
    hide Step;
  }

  lemma OverrunCopied(c: Config, s: Snap, s': Snap, i: nat, u: nat, k: nat, tf: nat, n: nat)
    requires ConfigOk(c) && i < |c.kstacks| && Unmirrored(c, s, i, u, k, tf, n) && Lim(c) < n
    requires Copies(s, s', u, k, 0, n, c.mask)
    ensures Overrun(c, s', i, u, k, tf, n) && Apart(s, s', {k}) && NoFrames(s', k)
  {
    var tramp := PageOf(c.l.trampoline);
    KernelCovered(s, s', u, k, Lim(c), Regions(c, i), n, c.mask);
    ApartSameUsed(s, s', k, 0, n);
    UserRoot(s, u, n, tf, tramp, true);
    ApartSame(s, s', {k}, u);
    UserKept(s, s', u, n, tf, tramp, true);
    KernelRoot(s', k, n, Regions(c, i), Copied(s, u, Range(0, n), c.mask));
    hide UserTable, KernelTable, Regions, Copied, Apart, Entry, Step, Table0, ConfigOk, PageOf, Fixed, Masked;
    CopiedSame(s, s', u, Range(0, n), c.mask) by {
      MpBelow(Range(0, n), n, n);
    }
  }

  lemma UnmirroredReady(c: Config, s: Snap, i: nat, u: nat, k: nat, tf: nat, n: nat)
    requires ConfigOk(c) && i < |c.kstacks| && Unmirrored(c, s, i, u, k, tf, n)
    ensures IsRoot(s.loc, u) && IsRoot(s.loc, k) && u != k && MaskOk(c.mask) && AllReadable(s, u, 0, n)
    ensures forall v: nat | v < n :: !Missing(s, u, v)
    ensures n <= Lim(c) ==> Mirrors(c, s, i, u, k, tf, n, {})
  {
  }

  // vmcopypage of the whole new image.
  method CopyWhole(m: Memory, c: Config, ghost i: nat, u: nat, k: nat, ghost tf: nat, sz: nat) returns (ok: bool)
    requires m.Inv() && ConfigOk(c) && i < |c.kstacks| && Unmirrored(c, m.S(), i, u, k, tf, Pages(sz))
    modifies m
    ensures m.Inv()
    ensures ok ==> Apart(old(m.S()), m.S(), {k}) && NoFrames(m.S(), k)
    ensures ok && Pages(sz) <= Lim(c) ==> Mirrors(c, m.S(), i, u, k, tf, Pages(sz), Range(0, Pages(sz)))
    ensures ok && Pages(sz) > Lim(c) ==> Overrun(c, m.S(), i, u, k, tf, Pages(sz))
    ensures !ok ==> m.free == {}
    ensures Enough(ok, CopyNeeds(0, sz), old(m.free), m.free)
  {
    hide RangeLacks, Blocks, Good, ConfigOk, Mirrors, Unmirrored, Overrun, Apart, PageOf, Pages, Range, AllReadable;
    hide MaskOk, Copies, IsRoot, Missing, NoFrames, Lim;
    ghost var s := m.S();
    ghost var n := Pages(sz);
    StartOf(sz);
    UnmirroredReady(c, s, i, u, k, tf, n);
    RangeLacksBound(s, k, 0, n);
    ghost var stop;
    ok, stop := VmCopyPage(m, u, k, 0, sz, c.mask);
    if ok {
      if n <= Lim(c) {
        MirrorsCopied(c, s, m.S(), i, u, k, tf, n, {}, 0, n);
        assert {} + Range(0, n) == Range(0, n);
        MirrorsUserTable(c, m.S(), i, u, k, tf, n, Range(0, n));
      } else {
        OverrunCopied(c, s, m.S(), i, u, k, tf, n);
      }
    }
  }

  // exec, from the commit to the new image on. It panics if the old image was not
  // wholly mirrored. Whether the new one ends below the PLIC it does not ask.
  method ExecTables(m: Memory, c: Config, ghost i: nat, p: Proc, u2: nat, sz2: nat, ghost mp: set<nat>)
    returns (r: Outcome)
    requires m.Inv() && Labelled(m.S()) && ConfigOk(c) && i < |c.kstacks|
    requires Mirrors(c, m.S(), i, p.pagetable, p.kpagetable, p.trapframe, Pages(p.sz), mp)
    requires UserTable(m.S(), u2, Pages(sz2), p.trapframe, PageOf(c.l.trampoline), false)
    requires u2 != p.pagetable && u2 != p.kpagetable && u2 != 0
    modifies m
    ensures m.Inv() && !r.Failed?
    ensures r.Panics? ==> m.free == {} || exists v: nat :: v < Pages(p.sz) && v !in mp
    ensures r.Done? ==> forall v: nat | v < Pages(p.sz) :: v in mp
    ensures (forall v: nat | v < Pages(p.sz) :: v in mp) ==> Enough(r.Done?, CopyNeeds(0, sz2), old(m.free), m.free)
    ensures r.Done? && Pages(sz2) <= Lim(c) ==>
              Mirrors(c, m.S(), i, u2, p.kpagetable, p.trapframe, Pages(sz2), Range(0, Pages(sz2)))
    ensures r.Done? && Pages(sz2) > Lim(c) ==> Overrun(c, m.S(), i, u2, p.kpagetable, p.trapframe, Pages(sz2))
    ensures r.Done? ==> Labelled(m.S()) && Gone(m.S(), {p.pagetable})
                        && Apart(old(m.S()), m.S(), {p.pagetable, u2, p.kpagetable})
    ensures r.Done? ==> SameEntries(old(m.pt), m.pt, u2, VPNS)
  {
    hide CopyNeeds, Unmirrored, Overrun, NoFrames, SameEntries;
    hide Good, ConfigOk, Mirrors, Apart, Pages, Range, IsRoot, Unmaps, Missing, UserTable, Labelled, Gone, PageOf, Lim;
    ghost var s := m.S();
    var u, k := p.pagetable, p.kpagetable;
    ghost var tf, n, n2 := p.trapframe, Pages(p.sz), Pages(sz2);
    MirrorsUserTable(c, s, i, u, k, tf, n, mp);
    HandOver(s, u, n, u2, n2, tf, PageOf(c.l.trampoline));
    Claim(m, tf, u2, TOP);
    ghost var t := m.S();
    ProcFreepagetable(m, u, p.sz, tf, PageOf(c.l.trampoline));
    ghost var a := m.S();
    Fewer(s.free, a.free);
    ExecStuck(c, s, t, a, i, u, k, tf, n, mp, u2);
    // the old mirror is unmapped
    var ok;
    ghost var stop;
    ok, stop := UnmapRange(m, k, 0, Pages(p.sz), false);
    if !ok {
      return Panics;
    }
    ghost var b := m.S();
    ShrinkAll(a, b, k, 0, n);
    ExecMirror(c, s, t, a, b, i, u, k, tf, n, mp, u2, n2);
    UnmapsSameFree(a, b, k, 0, n);
    // and the new image mirrored
    ok := CopyWhole(m, c, i, u2, k, tf, sz2);
    if !ok {
      return Panics;
    }
    ExecEnds(s, b, m.S(), u, u2, k);
    UserRoot(t, u2, n2, tf, PageOf(c.l.trampoline), true);
    ExecKeeps(t, a, b, m.S(), u, u2, k, n);
    r := Done;
  }

  lemma ExecKeeps(t: Snap, a: Snap, b: Snap, s': Snap, u: nat, u2: nat, k: nat, n: nat)
    requires Apart(t, a, {u}) && Unmaps(a, b, k, 0, n, false) && Apart(b, s', {k})
    requires IsRoot(t.loc, u2) && u2 != u && u2 != k
    ensures SameEntries(t.pt, s'.pt, u2, VPNS)
  {
    ApartUnmaps(a, b, k, 0, n, false);
    ApartSame(t, a, {u}, u2);
    ApartSame(a, b, {k}, u2);
    ApartSame(b, s', {k}, u2);
    hide Apart, Unmaps, Entry;
  }

  lemma UnmapsSameFree(s: Snap, s': Snap, root: nat, lo: nat, hi: nat)
    requires Unmaps(s, s', root, lo, hi, false)
    ensures s'.free == s.free
  {
  }

  lemma MirrorsUserTable(c: Config, s: Snap, i: nat, u: nat, k: nat, tf: nat, n: nat, mp: set<nat>)
    requires ConfigOk(c) && i < |c.kstacks| && Mirrors(c, s, i, u, k, tf, n, mp)
    ensures UserTable(s, u, n, tf, PageOf(c.l.trampoline), true) && u != k && NoFrames(s, k)
  {
  }

  lemma StartOf(sz: nat)
    ensures PageOf(0) == 0 && PageOf(0) + Pages(sz) == Pages(sz)
  {
  }

  lemma ExecEnds(s: Snap, b: Snap, s': Snap, u: nat, u2: nat, k: nat)
    requires Apart(s, b, {u, u2, k}) && Gone(b, {u}) && Labelled(b) && Apart(b, s', {k}) && u != k && u2 != k
    requires NoFrames(s', k)
    ensures Apart(s, s', {u, u2, k}) && Gone(s', {u}) && Labelled(s')
  {
    ApartWiden(b, s', {k}, {u, u2, k});
    ApartTrans(s, b, s', {u, u2, k});
    LabelledApart(b, s', {k});
    GoneKept(b, s', u, k);
    hide Apart, Entry;
  }

  lemma GoneKept(b: Snap, s': Snap, u: nat, k: nat)
    requires Gone(b, {u}) && Apart(b, s', {k}) && u != k
    ensures Gone(s', {u})
  {
  }

  /* fork and userinit */

  // A page table that was there before the new ones.
  lemma OldUser(s: Snap, s': Snap, a: nat, b: nat, u: nat, n: nat, tf: nat, tramp: nat)
    requires UserTable(s, u, n, tf, tramp, true) && a !in s.loc && b !in s.loc && Apart(s, s', {a, b})
    ensures UserTable(s', u, n, tf, tramp, true) && UserSame(s, s', u) && u !in {a, b}
    ensures IsRoot(s'.loc, u) && n <= TOP && Backed(s', u, 0, n)
  {
    UserRoot(s, u, n, tf, tramp, true);
    ApartSame(s, s', {a, b}, u);
    UserKept(s, s', u, n, tf, tramp, true);
    hide Apart, UserSame, Entry, Owned, Tops, Backing, Present;
  }

  // The child's pages have the parent's flags.
  ghost predicate SameFlags(s: Snap, u: nat, s': Snap, u': nat, n: nat) {
    forall v: nat | v < n :: Entry(s'.pt, u', v).flags == Entry(s.pt, u, v).flags
  }

  lemma ForkGrown(c: Config, s: Snap, s1: Snap, s2: Snap, i: nat, u: nat, u': nat, k': nat, tf': nat, n: nat)
    requires ConfigOk(c) && i < |c.kstacks| && Mirrors(c, s1, i, u', k', tf', 0, {}) && n <= Lim(c)
    requires UserSame(s, s1, u) && Backed(s1, u, 0, n)
    requires Grows(s1, s2, u', 0, n, Like(s1.pt, u))
    ensures Mirrors(c, s2, i, u', k', tf', n, {}) && Apart(s1, s2, {u'}) && SameFlags(s, u, s2, u', n)
  {
    LimTop(c, i);
    LikeRights(s1, u, n);
    MirrorsGrown(c, s1, s2, i, u', k', tf', 0, n, {}, Like(s1.pt, u));
    hide Mirrors, Apart, Entry, Step, Owned, Backed, RightsOk, Lim, ConfigOk;
  }

  lemma ForkCopied(s: Snap, s2: Snap, s3: Snap, u: nat, u': nat, k': nat, n: nat)
    requires SameFlags(s, u, s2, u', n) && IsRoot(s2.loc, u') && Apart(s2, s3, {k'}) && u' != k' && n <= VPNS
    ensures SameFlags(s, u, s3, u', n)
  {
  }

  function ForkNeeds(l: Layout, sz: nat): int
    requires l.kernbase <= l.etext <= l.physstop
  {
    ProcNeeds(l) + ImageNeeds(0, sz) + CopyNeeds(0, sz)
  }

  // The tables of fork's child, which is a copy of the image at u. Only a lack of
  // memory makes it fail, or panic.
  method ForkTables(m: Memory, c: Config, i: nat, u: nat, sz: nat, ghost tf: nat) returns (r: Outcome, np: Proc)
    requires m.Inv() && Labelled(m.S()) && ConfigOk(c) && i < |c.kstacks|
    requires UserTable(m.S(), u, Pages(sz), tf, PageOf(c.l.trampoline), true) && Pages(sz) <= Lim(c)
    modifies m
    ensures m.Inv()
    ensures r.Done? ==> Mirrors(c, m.S(), i, np.pagetable, np.kpagetable, np.trapframe, Pages(sz), Range(0, Pages(sz)))
                        && np.sz == sz && SameFlags(old(m.S()), u, m.S(), np.pagetable, Pages(sz))
                        && np.pagetable !in old(m.loc) && np.kpagetable !in old(m.loc)
                        && Apart(old(m.S()), m.S(), {np.pagetable, np.kpagetable}) && Labelled(m.S())
    ensures r.Failed? ==> Apart(old(m.S()), m.S(), {}) && Labelled(m.S()) && m.free == old(m.free)
    ensures r.Panics? ==> m.free == {}
    ensures Enough(r.Done?, ForkNeeds(c.l, sz), old(m.free), m.free)
    ensures r.Failed? ==> |old(m.free)| < ProcNeeds(c.l) + ImageNeeds(0, sz)
  {
    hide ProcNeeds, ImageNeeds, CopyNeeds, Needs;
    hide Good, ConfigOk, Mirrors, Apart, Pages, Range, IsRoot, UserTable, Labelled;
    hide Gone, PageOf, Lim, ProcOk, UserSame, Backed, Vacant, Grows, Quiet, SameFlags;
    ghost var s := m.S();
    NeedsPositive(sz);
    r, np := AllocTables(m, c, i);
    ghost var s1 := m.S();
    if r.Failed? {
      GoneNone(s, s1);
      SameFree(s, s1, m.pages, {});
    }
    if !r.Done? {
      return;
    }
    var u', k' := np.pagetable, np.kpagetable;
    OldUser(s, s1, u', k', u, Pages(sz), tf, PageOf(c.l.trampoline));
    NoPages();
    MirrorsIs(c, s1, i, np, {});
    GrowReady(c, s1, i, u', k', np.trapframe, 0, {}, Pages(sz));
    UvmNeeds(s1, u', 0, sz);
    var ok := UvmCopy(m, u, u', sz);
    ghost var s2 := m.S();
    if !ok {
      MirrorsQuiet(c, s1, s2, i, u', k', np.trapframe, 0, {});
      MirrorsIs(c, s2, i, np, {});
      QuietLabelled(s1, s2, u');
      FreeTables(m, c, i, np, {});
      ApartWiden(s1, s2, {u'}, {u', k'});
      ApartTrans(s, s1, s2, {u', k'});
      ApartTrans(s, s2, m.S(), {u', k'});
      NothingLeft(s, m.S(), m.pages, u', k');
      return Failed, NOPROC;
    }
    ForkGrown(c, s, s1, s2, i, u, u', k', np.trapframe, Pages(sz));
    np := np.(sz := sz);
    StartOf(sz);
    ok := CopyImage(m, c, i, u', k', np.trapframe, Pages(sz), 0, sz, {});
    if !ok {
      return Panics, np;
    }
    ForkEnds(c, s, s1, s2, m.S(), i, u, u', k', np.trapframe, Pages(sz));
    assert {} + Range(0, Pages(sz)) == Range(0, Pages(sz));
    r := Done;
  }

  lemma NeedsPositive(sz: nat)
    ensures 0 <= ImageNeeds(0, sz)
  {
  }

  lemma NoPages()
    ensures Pages(0) == 0
  {
  }

  lemma QuietLabelled(s: Snap, s': Snap, root: nat)
    requires Quiet(s, s', root) && Labelled(s)
    ensures Labelled(s')
  {
  }

  lemma ForkEnds(c: Config, s: Snap, s1: Snap, s2: Snap, s3: Snap, i: nat, u: nat, u': nat, k': nat, tf': nat, n: nat)
    requires ConfigOk(c) && i < |c.kstacks| && Mirrors(c, s2, i, u', k', tf', n, {}) && Labelled(s1)
    requires Apart(s, s1, {u', k'}) && Apart(s1, s2, {u'}) && Apart(s2, s3, {k'}) && SameFlags(s, u, s2, u', n)
    requires Mirrors(c, s3, i, u', k', tf', n, {} + Range(0, n))
    ensures Apart(s, s3, {u', k'}) && Labelled(s3) && SameFlags(s, u, s3, u', n)
  {
    TwoStages(s1, s2, s3, u', k');
    ApartTrans(s, s1, s3, {u', k'});
    MirrorsUserTable(c, s3, i, u', k', tf', n, {} + Range(0, n));
    MirrorsUserTable(c, s2, i, u', k', tf', n, {});
    UserRoot(s2, u', n, tf', PageOf(c.l.trampoline), true);
    UserRoot(s3, u', n, tf', PageOf(c.l.trampoline), true);
    ForkCopied(s, s2, s3, u, u', k', n);
    hide Apart, Mirrors, Entry, UserTable, SameFlags, Range, ConfigOk, PageOf;
    forall p | p in s3.used && Of(s3.used[p], {u', k'})
      ensures IsRoot(s3.loc, s3.used[p].root)
    {
      assert !Of(s3.used[p], {k'});
    }
    LabelledApart(s1, s3, {u', k'});
  }

  // The tables of the first process, with one page of user memory. Any lack of
  // memory is a panic here.
  method UserinitTables(m: Memory, c: Config, i: nat) returns (ok: bool, np: Proc)
    requires m.Inv() && Labelled(m.S()) && ConfigOk(c) && i < |c.kstacks| && 1 <= Lim(c)
    modifies m
    ensures m.Inv()
    ensures ok ==> Mirrors(c, m.S(), i, np.pagetable, np.kpagetable, np.trapframe, 1, {0}) && np.sz == PGSIZE
                   && np.pagetable !in old(m.loc) && np.kpagetable !in old(m.loc)
                   && Apart(old(m.S()), m.S(), {np.pagetable, np.kpagetable}) && Labelled(m.S())
    ensures ok ==> Entry(m.pt, np.pagetable, 0).flags == {V, R, W, X, U}
    ensures Enough(ok, ProcNeeds(c.l) + 5, old(m.free), m.free)
  {
    hide ProcNeeds, CopyNeeds, Needs;
    hide Good, ConfigOk, Mirrors, Apart, Pages, Range, IsRoot, UserTable;
    hide Labelled, Gone, PageOf, Lim, ProcOk, Vacant, Grows, Quiet, RightsOk;
    ghost var s := m.S();
    var r;
    r, np := AllocTables(m, c, i);
    ghost var s1 := m.S();
    if !r.Done? {
      return false, np;
    }
    var u, k := np.pagetable, np.kpagetable;
    NoPages();
    MirrorsIs(c, s1, i, np, {});
    GrowReady(c, s1, i, u, k, np.trapframe, 0, {}, 1);
    // uvminit
    NeedsBound(s1, u, 0, 1);
    ok := AllocRange(m, u, 0, 1);
    if !ok {
      return false, np;
    }
    ghost var s2 := m.S();
    AllRights(0, 1);
    MirrorsGrown(c, s1, s2, i, u, k, np.trapframe, 0, 1, {}, All);
    np := np.(sz := PGSIZE);
    FirstPage();
    ok := CopyImage(m, c, i, u, k, np.trapframe, 1, 0, PGSIZE, {});
    if ok {
      NewEnds(c, s, s1, s2, m.S(), i, u, k, np.trapframe, 1, {} + Range(0, 1));
      GrownKeeps(s1, s2, m.S(), u, k, 0, 1);
    }
  }

  lemma FirstPage()
    ensures PageOf(0) == 0 && Pages(PGSIZE) == 1 && {} + Range(0, 1) == {0} && CopyNeeds(0, PGSIZE) == 2
  {
  }

  lemma NewEnds(c: Config, s: Snap, s1: Snap, s2: Snap, s3: Snap, i: nat, u: nat, k: nat, tf: nat, n: nat, mp: set<nat>)
    requires ConfigOk(c) && i < |c.kstacks| && Labelled(s1) && Mirrors(c, s3, i, u, k, tf, n, mp)
    requires Apart(s, s1, {u, k}) && Apart(s1, s2, {u}) && Apart(s2, s3, {k})
    ensures Apart(s, s3, {u, k}) && Labelled(s3)
  {
    TwoStages(s1, s2, s3, u, k);
    ApartTrans(s, s1, s3, {u, k});
    MirrorsUserTable(c, s3, i, u, k, tf, n, mp);
    UserRoot(s3, u, n, tf, PageOf(c.l.trampoline), true);
    hide Apart, Mirrors, Entry, UserTable, Range, ConfigOk, PageOf;
    forall p | p in s3.used && Of(s3.used[p], {u, k})
      ensures IsRoot(s3.loc, s3.used[p].root)
    {
      assert !Of(s3.used[p], {k});
    }
    LabelledApart(s1, s3, {u, k});
  }

  /* The new image of exec. */

  // A user page table with the image of sz bytes, made since s0.
  ghost predicate Imaged(s0: Snap, s: Snap, u: nat, sz: nat, tf: nat, tramp: nat) {
    UserTable(s, u, Pages(sz), tf, tramp, false) && Labelled(s) && Apart(s0, s, {u}) && Gone(s0, {u})
  }

  lemma ImagedGrown(s0: Snap, s: Snap, s': Snap, u: nat, sz: nat, sz': nat, tf: nat, tramp: nat)
    requires Imaged(s0, s, u, sz, tf, tramp) && sz <= sz' && Pages(sz') <= TOP
    requires Grows(s, s', u, Pages(sz), Pages(sz'), All)
    ensures Imaged(s0, s', u, sz', tf, tramp)
  {
    PagesOrder(sz, sz');
    AllRights(Pages(sz), Pages(sz'));
    UserGrown(s, s', u, Pages(sz), Pages(sz'), All, tf, tramp, false);
    ApartGrows(s, s', u, Pages(sz), Pages(sz'), All);
    ImagedOn(s0, s, s', u, Pages(sz'), tf, tramp);
  }

  lemma ImagedOn(s0: Snap, s: Snap, s': Snap, u: nat, n: nat, tf: nat, tramp: nat)
    requires Labelled(s) && Apart(s0, s, {u}) && Apart(s, s', {u}) && UserTable(s', u, n, tf, tramp, false)
    ensures Labelled(s') && Apart(s0, s', {u})
  {
  }

  lemma ImagedQuiet(s0: Snap, s: Snap, s': Snap, u: nat, sz: nat, tf: nat, tramp: nat)
    requires Imaged(s0, s, u, sz, tf, tramp) && Quiet(s, s', u)
    ensures Imaged(s0, s', u, sz, tf, tramp)
  {
    UserRoot(s, u, Pages(sz), tf, tramp, false);
    QuietSame(s, s', u);
    UserKept(s, s', u, Pages(sz), tf, tramp, false);
    ApartQuiet(s, s', u);
    ImagedOn(s0, s, s', u, Pages(sz), tf, tramp);
  }

  lemma ImagedReady(s0: Snap, s: Snap, u: nat, sz: nat, tf: nat, tramp: nat, hi: nat)
    requires Imaged(s0, s, u, sz, tf, tramp) && hi <= TOP
    ensures IsRoot(s.loc, u) && Vacant(s, u, Pages(sz), hi)
  {
  }

  // With the tables for the pages up to sz in place, uvmalloc needs no more than
  // the difference.
  lemma GrowingNeeds(s0: Snap, s: Snap, pages: set<nat>, u: nat, sz: nat, sz': nat, tf: nat, tramp: nat)
    requires Good(s, pages) && Imaged(s0, s, u, sz, tf, tramp) && sz <= sz'
    ensures ImageNeeds(0, sz) + Needs(s, u, Pages(sz), Pages(sz')) <= ImageNeeds(0, sz')
    ensures 0 <= ImageNeeds(0, sz) <= ImageNeeds(0, sz')
  {
    var n, n' := Pages(sz), Pages(sz');
    if n > 0 {
      assert Present(Entry(s.pt, u, n - 1));
      PresentHasTable(s, pages, u, n - 1);
    }
    hide Good, Imaged, Entry, Present;
    PagesOrder(sz, sz');
    NoPages();
    BlocksNext(s, u, n, n');
    hide Pages, Needs, Blocks, Table0;
  }

  lemma BlocksNext(s: Snap, u: nat, n: nat, n': nat)
    requires n <= n' && (n > 0 ==> Table0(s.pt, u, n - 1) != 0)
    ensures n + 2 * Blocks(0, n) + Needs(s, u, n, n') <= n' + 2 * Blocks(0, n') && Blocks(0, n) <= Blocks(0, n')
  {
    if n > 0 && (n - 1) / 512 == n / 512 {
      SameBlock(s.pt, u, n - 1, n);
    }
    hide Table0;
  }

  lemma ImagedTop(s0: Snap, s: Snap, u: nat, sz: nat, tf: nat, tramp: nat)
    requires Imaged(s0, s, u, sz, tf, tramp)
    ensures Pages(sz) <= TOP && Present(Entry(s.pt, u, TOP))
    ensures IsRoot(s.loc, u) && Backed(s, u, 0, Pages(sz))
  {
  }

  // uvmalloc of exec: the image grows to sz', or nothing changes.
  method GrowImage(m: Memory, u: nat, sz: nat, sz': nat, ghost tf: nat, ghost tramp: nat, ghost s0: Snap)
    returns (r: nat, panics: bool)
    requires m.Inv() && Imaged(s0, m.S(), u, sz, tf, tramp)
    modifies m
    ensures m.Inv() && (panics ==> Pages(sz') > TOP && sz <= sz' && TOP < |m.pages|)
    ensures !panics ==> (r == 0 || r == if sz' < sz then sz else sz')
                        && Imaged(s0, m.S(), u, if r == 0 then sz else r, tf, tramp)
    ensures !panics && sz <= sz' ==> Enough(r == sz', ImageNeeds(0, sz') - ImageNeeds(0, sz), old(m.free), m.free)
    ensures !panics && sz' < sz ==> r == sz && m.S() == old(m.S())
    ensures !panics && r != 0 && AllUser(old(m.pt), u, 0, Pages(sz)) ==> AllUser(m.pt, u, 0, Pages(r))
  {
    hide ImageNeeds, Needs, Good, Imaged, Grows, Quiet, IsRoot, Vacant, Pages, Present, Entry, Backed;
    ghost var s := m.S();
    ImagedTop(s0, s, u, sz, tf, tramp);
    ImagedReady(s0, s, u, sz, tf, tramp, Min(Pages(sz'), TOP));
    if sz <= sz' {
      GrowingNeeds(s0, s, m.pages, u, sz, sz', tf, tramp);
    }
    r, panics := UvmAlloc(m, u, sz, sz');
    if sz <= sz' && !panics {
      if r != 0 {
        ImagedGrown(s0, s, m.S(), u, sz, sz', tf, tramp);
        GrownUser(s, m.S(), u, Pages(sz), Pages(sz'));
      } else {
        ImagedSame(s0, s, m.S(), u, sz, sz', tf, tramp, r);
      }
    }
  }

  lemma ImagedSame(s0: Snap, s: Snap, s': Snap, u: nat, sz: nat, sz': nat, tf: nat, tramp: nat, r: nat)
    requires Imaged(s0, s, u, sz, tf, tramp) && sz <= sz' && r == 0
    requires (r == sz' && Pages(sz') <= TOP && Grows(s, s', u, Pages(sz), Pages(sz'), All))
             || (r == 0 && Quiet(s, s', u))
    ensures Imaged(s0, s', u, sz, tf, tramp)
  {
    if Quiet(s, s', u) {
      ImagedQuiet(s0, s, s', u, sz, tf, tramp);
    } else {
      ImagedGrown(s0, s, s', u, sz, sz', tf, tramp);
    }
  }

  // proc_freepagetable of an image that is not wanted after all.
  method DropImage(m: Memory, u: nat, sz: nat, ghost tf: nat, ghost tramp: nat, ghost s0: Snap)
    requires m.Inv() && Imaged(s0, m.S(), u, sz, tf, tramp)
    modifies m
    ensures m.Inv() && Labelled(m.S()) && Apart(s0, m.S(), {})
  {
    hide Good, Apart, Labelled, Gone, UserTable, Pages;
    ghost var s := m.S();
    ProcFreepagetable(m, u, sz, tf, tramp);
    ApartTrans(s0, s, m.S(), {u});
    ApartNothing(s0, m.S(), {u});
  }

  // One page of the image loses some rights.
  lemma UserCleared(s: Snap, s': Snap, u: nat, n: nat, tf: nat, tramp: nat, own: bool, v: nat)
    requires UserTable(s, u, n, tf, tramp, own) && v < n && Step(s, s', u, v, v + 1) && s'.used == s.used
    requires Entry(s'.pt, u, v).ppn == Entry(s.pt, u, v).ppn
    requires V in Entry(s'.pt, u, v).flags && R in Entry(s'.pt, u, v).flags
    ensures UserTable(s', u, n, tf, tramp, own)
  {
  }

  lemma ClearReady(s0: Snap, s: Snap, u: nat, sz: nat, tf: nat, tramp: nat, v: nat)
    requires Imaged(s0, s, u, sz, tf, tramp) && v < Pages(sz)
    ensures IsRoot(s.loc, u) && !Missing(s, u, v) && R in Entry(s.pt, u, v).flags && V in Entry(s.pt, u, v).flags
  {
  }

  lemma ImagedCleared(s0: Snap, s: Snap, s': Snap, u: nat, sz: nat, tf: nat, tramp: nat, v: nat)
    requires Imaged(s0, s, u, sz, tf, tramp) && v < Pages(sz) && Step(s, s', u, v, v + 1) && s'.used == s.used
    requires Entry(s'.pt, u, v) == Pte(Entry(s.pt, u, v).flags - {U}, Entry(s.pt, u, v).ppn)
    ensures Imaged(s0, s', u, sz, tf, tramp)
  {
    ClearReady(s0, s, u, sz, tf, tramp, v);
    UserCleared(s, s', u, Pages(sz), tf, tramp, false, v);
    ApartSameUsed(s, s', u, v, v + 1);
    ImagedOn(s0, s, s', u, Pages(sz), tf, tramp);
  }

  // uvmclear: the page is no longer accessible to user code.
  method UvmClear(m: Memory, u: nat, v: nat, ghost sz: nat, ghost tf: nat, ghost tramp: nat, ghost s0: Snap)
    requires m.Inv() && Imaged(s0, m.S(), u, sz, tf, tramp) && v < Pages(sz) <= TOP
    modifies m
    ensures m.Inv() && Imaged(s0, m.S(), u, sz, tf, tramp) && m.free == old(m.free)
    ensures Entry(m.pt, u, v) == Pte(Entry(old(m.pt), u, v).flags - {U}, Entry(old(m.pt), u, v).ppn)
    ensures forall w: nat | w < Pages(sz) && w != v :: Entry(m.pt, u, w) == Entry(old(m.pt), u, w)
  {
    hide Good, Imaged, IsRoot, Pages, Missing, OnPath, Px, Entry, Step, Table0;
    ghost var s := m.S();
    ClearReady(s0, s, u, sz, tf, tramp, v);
    var slot := m.Walk(u, Addr(v), false);
    NoSlotHere(s, m.pages, u, v, slot);
    m.SlotEntry(u, slot.table, v, ZERO_PTE);
    var e := m.pt[slot.table][slot.index];
    m.WriteAt(u, slot.table, v, Pte(e.flags - {U}, e.ppn));
    ImagedCleared(s0, s, m.S(), u, sz, tf, tramp, v);
    ClearedKeeps(s, m.S(), u, Pages(sz), v);
  }

  lemma ClearedKeeps(s: Snap, s': Snap, u: nat, n: nat, v: nat)
    requires Step(s, s', u, v, v + 1) && IsRoot(s.loc, u) && n <= TOP
    ensures forall w: nat | w < n && w != v :: Entry(s'.pt, u, w) == Entry(s.pt, u, w)
  {
    hide Entry, Table0;
  }

  lemma NoSlotHere(s: Snap, pages: set<nat>, root: nat, v: nat, r: Slot)
    requires Good(s, pages) && !Missing(s, root, v)
    requires r.Panicked? <==> Addr(v) >= MAXVA
    requires r.NoTable? ==> Table0(s.pt, root, PageOf(Addr(v))) == 0
    ensures r.At?
  {
  }

  // The next page boundary.
  function PgRoundUp(sz: nat): nat { 4096 * Pages(sz) }

  // The end of the first j segments: a segment that ends below one before it does
  // not shrink the image.
  function SegmentsEnd(ends: seq<nat>, j: nat): nat
    requires j <= |ends|
  {
    if j == 0 then 0
    else
      var e := SegmentsEnd(ends, j - 1);
      if ends[j - 1] < e then e else ends[j - 1]
  }

  // The size of the new image: the segments, a guard page and a stack page.
  function ImageSize(ends: seq<nat>): nat {
    PgRoundUp(SegmentsEnd(ends, |ends|)) + 2 * PGSIZE
  }

  // uvmalloc's result for an empty first segment looks like a failure.
  predicate EmptyFirst(ends: seq<nat>) { ends != [] && ends[0] == 0 }

  // The pages that building an image of that size takes.
  function BuildNeeds(sz: nat): int {
    5 + ImageNeeds(0, sz)
  }

  lemma {:induction false} EndsUpTo(ends: seq<nat>, j: nat)
    requires j <= |ends|
    ensures SegmentsEnd(ends, j) <= ImageSize(ends)
    ensures SegmentsEnd(ends, j) <= SegmentsEnd(ends, |ends|)
    ensures 0 < j && !EmptyFirst(ends) ==> SegmentsEnd(ends, j) > 0
    decreases |ends| - j
  {
    if j < |ends| {
      EndsUpTo(ends, j + 1);
    }
    EndsPositive(ends, j);
    hide EmptyFirst;
    PgUp(SegmentsEnd(ends, |ends|));
    hide PgRoundUp;
  }

  lemma {:induction false} EndsPositive(ends: seq<nat>, j: nat)
    requires j <= |ends|
    ensures 0 < j && !EmptyFirst(ends) ==> SegmentsEnd(ends, j) > 0
  {
    if j > 0 {
      EndsPositive(ends, j - 1);
    }
  }

  // No segment ends above the last end, and there is one that ends there.
  lemma {:induction false} EndIsLargest(ends: seq<nat>, j: nat)
    requires j <= |ends|
    ensures forall k | 0 <= k < j :: ends[k] <= SegmentsEnd(ends, j)
    ensures 0 < j ==> exists k :: 0 <= k < j && ends[k] == SegmentsEnd(ends, j)
  {
    if j > 0 {
      EndIsLargest(ends, j - 1);
      assert ends[j - 1] <= SegmentsEnd(ends, j);
    }
  }

  // The image is as large as its segments ask for: all of them lie below the guard
  // page, which is the first whole page after the one that ends last.
  lemma ImageSizeIs(ends: seq<nat>)
    ensures 8192 <= ImageSize(ends) && ImageSize(ends) % 4096 == 0
    ensures forall k | 0 <= k < |ends| :: ends[k] <= ImageSize(ends) - 8192
    ensures ends == [] ==> ImageSize(ends) == 8192
    ensures ends != [] ==> exists k :: 0 <= k < |ends| && ends[k] <= ImageSize(ends) - 8192 < ends[k] + 4096
  {
    EndIsLargest(ends, |ends|);
    hide SegmentsEnd;
    if ends != [] {
      var k :| 0 <= k < |ends| && ends[k] == SegmentsEnd(ends, |ends|);
      assert ends[k] <= ImageSize(ends) - 8192 < ends[k] + 4096;
    }
  }

  lemma PgUp(sz: nat)
    ensures sz <= PgRoundUp(sz) && Pages(PgRoundUp(sz)) == Pages(sz)
    ensures Pages(PgRoundUp(sz) + 2 * PGSIZE) == Pages(sz) + 2
    ensures ImageNeeds(0, PgRoundUp(sz)) == ImageNeeds(0, sz)
  {
  }

  lemma NeedsOrder(sz: nat, sz': nat)
    requires sz <= sz'
    ensures 0 <= ImageNeeds(0, sz) <= ImageNeeds(0, sz')
  {
  }

  lemma RoundedUp(s0: Snap, s: Snap, u: nat, sz: nat, tf: nat, tramp: nat)
    requires Imaged(s0, s, u, sz, tf, tramp)
    ensures Imaged(s0, s, u, PgRoundUp(sz), tf, tramp)
  {
  }

  // exec up to the commit: a new page table, memory for the segments of the
  // program, which end at `ends`, and two more pages, the lower one a guard page
  // below the stack. Failure leaves nothing behind; mappages panics if the image
  // would reach the trapframe.
  method BuildImage(m: Memory, c: Config, tf: nat, ends: seq<nat>) returns (r: Outcome, u: nat, sz: nat)
    requires m.Inv() && Labelled(m.S())
    modifies m
    ensures m.Inv()
    ensures r.Done? ==> Imaged(old(m.S()), m.S(), u, sz, tf, PageOf(c.l.trampoline)) && u !in old(m.loc) && u != 0
                        && sz == ImageSize(ends) && 2 <= Pages(sz) <= TOP && !EmptyFirst(ends) && Pages(sz) < |m.pages|
    ensures r.Done? ==> Segmented(m.pt, u, sz, ends)
    ensures r.Failed? ==> Labelled(m.S()) && Apart(old(m.S()), m.S(), {})
    ensures r.Panics? ==> Pages(ImageSize(ends)) > TOP && !EmptyFirst(ends) && TOP < |m.pages|
    ensures !EmptyFirst(ends) && !r.Panics? ==> Enough(r.Done?, BuildNeeds(ImageSize(ends)), old(m.free), m.free)
  {
    hide ImageNeeds, ImageSize, Segmented;
    hide Good, Imaged, Labelled, ConfigOk, Apart, UserTable, Pages, Lim, PageOf, Entry, Gone, PgRoundUp, Backed;
    ghost var s0 := m.S();
    ghost var tramp := PageOf(c.l.trampoline);
    NoPages();
    NeedsOrder(0, ImageSize(ends));
    sz := 0;
    u := ProcPagetable(m, tf, PageOf(c.l.trampoline));
    if u == 0 {
      return Failed, 0, 0;
    }
    ImagedStart(s0, m.S(), m.pages, u, tf, tramp);
    NoNeeds();
    // load program into memory
    var j := 0;
    while j < |ends|
      invariant 0 <= j <= |ends| && m.Inv() && Imaged(s0, m.S(), u, sz, tf, tramp) && sz == SegmentsEnd(ends, j)
      invariant |s0.free| <= |m.free| + 5 + ImageNeeds(0, sz)
      invariant 0 < j ==> 0 < sz && !EmptyFirst(ends)
      invariant AllUser(m.pt, u, 0, Pages(sz))
    {
      EndsUpTo(ends, j + 1);
      NeedsOrder(SegmentsEnd(ends, j + 1), ImageSize(ends));
      PagesOrder(SegmentsEnd(ends, j + 1), ImageSize(ends));
      var sz1, panics := GrowImage(m, u, sz, ends[j], tf, tramp, s0);
      if panics {
        return Panics, u, sz;
      }
      if sz1 == 0 {
        DropImage(m, u, sz, tf, tramp, s0);
        return Failed, 0, 0;
      }
      sz := sz1;
      j := j + 1;
    }
    // the guard page and the user stack, from the next page boundary on
    RoundedUp(s0, m.S(), u, sz, tf, tramp);
    PgUp(sz);
    sz := PgRoundUp(sz);
    assert sz + 2 * PGSIZE == ImageSize(ends) by { SizeIs(ends); }
    var sz1, panics := GrowImage(m, u, sz, sz + 2 * PGSIZE, tf, tramp, s0);
    if panics {
      return Panics, u, sz;
    }
    if sz1 == 0 {
      DropImage(m, u, sz, tf, tramp, s0);
      return Failed, 0, 0;
    }
    sz := sz1;
    ImagedTop(s0, m.S(), u, sz, tf, tramp);
    ImageFits(m.S(), m.pages, u, Pages(sz));
    ghost var pt := m.pt;
    UvmClear(m, u, Pages(sz) - 2, sz, tf, tramp, s0);
    GuardBelowStack(pt, m.pt, u, ends);
    r := Done;
  }

  // An image of exec: every page below the end of a segment is user memory below the
  // guard page; the guard page, which only the kernel can use, is the first whole page
  // after the end of all segments, and the stack page is above it.
  ghost predicate Segmented(pt: Heap, u: nat, sz: nat, ends: seq<nat>) {
    && 8192 <= sz && sz % 4096 == 0
    && (forall k | 0 <= k < |ends| :: ends[k] <= sz - 8192)
    && (if ends == [] then sz == 8192
        else exists k :: 0 <= k < |ends| && ends[k] <= sz - 8192 < ends[k] + 4096)
    && (forall v: nat | v < sz / 4096 - 2 || v == sz / 4096 - 1 :: Entry(pt, u, v).flags == {V, R, W, X, U})
    && Entry(pt, u, sz / 4096 - 2).flags == {V, R, W, X}
  }

  lemma GuardBelowStack(pt: Heap, pt': Heap, u: nat, ends: seq<nat>)
    requires var n := Pages(ImageSize(ends));
             && 2 <= n && AllUser(pt, u, 0, n)
             && Entry(pt', u, n - 2).flags == Entry(pt, u, n - 2).flags - {U}
             && forall w: nat | w < n && w != n - 2 :: Entry(pt', u, w) == Entry(pt, u, w)
    ensures Segmented(pt', u, ImageSize(ends), ends)
  {
    hide Entry, ImageSize;
    ImageSizeIs(ends);
    assert Pages(ImageSize(ends)) == ImageSize(ends) / 4096;
    assert {V, R, W, X, U} - {U} == {V, R, W, X};
  }

  lemma NoNeeds()
    ensures ImageNeeds(0, 0) == 0
  {
  }

  lemma SizeIs(ends: seq<nat>)
    ensures ImageSize(ends) == PgRoundUp(SegmentsEnd(ends, |ends|)) + 2 * PGSIZE
  {
  }

  lemma ImagedStart(s0: Snap, s: Snap, pages: set<nat>, u: nat, tf: nat, tramp: nat)
    requires Good(s0, pages) && Labelled(s0) && u !in s0.loc
    requires UserTable(s, u, 0, tf, tramp, false) && Labelled(s) && Apart(s0, s, {u})
    ensures Imaged(s0, s, u, 0, tf, tramp)
  {
    FreshGone(s0, pages, u);
    NoPages();
    hide Good, Labelled, Apart, UserTable, Gone, Pages;
  }
}
