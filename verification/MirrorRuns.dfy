/** When the mirror is complete: for each process, over all its growths, shrinks
    and execs. */
module MirrorRuns {
  import opened Sv39
  import opened Vm
  import opened Uvm
  import opened UserMem
  import opened CopyPage
  import opened Isolation
  import opened Kvm
  import opened UserTables
  import opened Mirror
  import opened Processes
  import opened Growth
  import opened ProcTable
  import opened Syscalls
  import opened Boot

  // What the invariant says, page by page. Below the size the user has a frame of its
  // own, readable; above it only the trampoline and the trapframe. A mirrored page is
  // the user's page without the masked flags, and one not mirrored is not mapped; from
  // there to the PLIC nothing is mapped; from the PLIC on, what the kernel has there,
  // the process's own kernel stack, and nothing below the stack.
  lemma MirrorMeans(c: Config, s: Snap, ps: seq<Proc>, mp: seq<set<nat>>, i: nat, v: nat)
    requires ConfigOk(c) && World(c, s, ps, mp) && i < |ps| && ps[i].pagetable != 0 && v < VPNS
    ensures |ps| == |mp| == |c.kstacks| && Pages(ps[i].sz) <= c.l.plic / 4096
    ensures var ue := Entry(s.pt, ps[i].pagetable, v);
            if v < Pages(ps[i].sz) then
              V in ue.flags && R in ue.flags && ue.ppn in s.used && s.used[ue.ppn] == Frame(ps[i].pagetable, v)
            else ue == if v == MAXVPN - 1 then Pte({V, R, X}, PageOf(c.l.trampoline))
                       else if v == MAXVPN - 2 then Pte({V, R, W}, ps[i].trapframe) else ZERO_PTE
    ensures var ue, ke := Entry(s.pt, ps[i].pagetable, v), Entry(s.pt, ps[i].kpagetable, v);
            && (v in mp[i] ==>
                  && v < Pages(ps[i].sz) && V in ke.flags && R in ke.flags && U !in ke.flags
                  && ke.ppn == ue.ppn && forall f: Flag :: f in ke.flags <==> f in ue.flags && f !in c.mask)
            && (v !in mp[i] && v < c.l.plic / 4096 ==> ke == ZERO_PTE)
            && (v >= c.l.plic / 4096 ==>
                  ke == if v == MAXVPN - 1 - 2 * (i + 1) then Pte({V, R, W}, PageOf(c.kstacks[i]))
                        else KernelPte(c.l, v))
            && (v == MAXVPN - 2 - 2 * (i + 1) ==> ke == ZERO_PTE)
  {
    hide World, Mirrors, Entry, Fixed, Regions, KernelPte, UserTable;
    WorldHas(c, s, ps, mp, i);
    MirrorAt(c, s, i, ps[i].pagetable, ps[i].kpagetable, ps[i].trapframe, Pages(ps[i].sz), mp[i], v);
    UserMeans(s, ps[i].pagetable, Pages(ps[i].sz), ps[i].trapframe, PageOf(c.l.trampoline), true);
    RegionsMean(c, i, v);
    BelowDevices(c, i, v);
  }

  lemma MirrorAt(c: Config, s: Snap, i: nat, u: nat, k: nat, tf: nat, n: nat, mp: set<nat>, v: nat)
    requires ConfigOk(c) && i < |c.kstacks| && Mirrors(c, s, i, u, k, tf, n, mp) && v < VPNS
    ensures n <= Lim(c) && Lim(c) == c.l.plic / 4096 && UserTable(s, u, n, tf, PageOf(c.l.trampoline), true)
    ensures c.l.plic / 4096 <= MAXVPN - 2 - 2 * (i + 1) && 2 * (i + 1) <= MAXVPN - 2
    ensures var ue, ke := Entry(s.pt, u, v), Entry(s.pt, k, v);
            && (v < n ==> Present(ue) && R in ue.flags && ue.ppn in s.used && s.used[ue.ppn] == Frame(u, v))
            && (v in mp ==> v < n && ke == Masked(ue, c.mask) && Leaf(ke) && U !in ke.flags)
            && (v in mp ==> V in ke.flags && R in ke.flags)
            && (v !in mp && v < Lim(c) ==> ke == ZERO_PTE)
            && (v >= Lim(c) ==> ke == Fixed(Regions(c, i), v))
  {
  }

  // After an exec over the PLIC the kernel page table has the image's pages, without
  // the masked flags, in place of what it had there, and from the image's end on what
  // it had before.
  lemma OverrunMeans(c: Config, s: Snap, i: nat, u: nat, k: nat, tf: nat, n: nat, v: nat)
    requires ConfigOk(c) && i < |c.kstacks| && Overrun(c, s, i, u, k, tf, n) && v < VPNS
    ensures c.l.plic / 4096 < n
    ensures var ue, ke := Entry(s.pt, u, v), Entry(s.pt, k, v);
            if v < n then ke.ppn == ue.ppn && forall f: Flag :: f in ke.flags <==> f in ue.flags && f !in c.mask
            else ke == if v == MAXVPN - 1 - 2 * (i + 1) then Pte({V, R, W}, PageOf(c.kstacks[i])) else KernelPte(c.l, v)
  {
    hide UserTable, Entry, KernelPte, Regions, Fixed;
    RegionsMean(c, i, v);
    RangeIs(0, n, v);
  }

  lemma RangeIs(lo: nat, hi: nat, v: nat)
    ensures v in Range(lo, hi) <==> lo <= v < hi
  {
  }

  // No frame is behind two pages, of one process or of two.
  lemma FramesDistinct(c: Config, s: Snap, ps: seq<Proc>, mp: seq<set<nat>>, i: nat, v: nat, j: nat, w: nat)
    requires ConfigOk(c) && World(c, s, ps, mp) && i < |ps| && j < |ps| && ps[i].pagetable != 0 && ps[j].pagetable != 0
    requires v < Pages(ps[i].sz) && w < Pages(ps[j].sz) && v < VPNS && w < VPNS
    requires Entry(s.pt, ps[i].pagetable, v).ppn == Entry(s.pt, ps[j].pagetable, w).ppn
    ensures i == j && v == w
  {
    if i < j {
      UsersDiffer(ps, c.kroot, i, j);
    } else if j < i {
      UsersDiffer(ps, c.kroot, j, i);
    }
    MirrorMeans(c, s, ps, mp, i, v);
    MirrorMeans(c, s, ps, mp, j, w);
  }

  lemma UsersDiffer(ps: seq<Proc>, kroot: nat, i: nat, j: nat)
    requires Separated(ps, kroot) && i < j < |ps| && ps[i].pagetable != 0 && ps[j].pagetable != 0
    ensures ps[i].pagetable != ps[j].pagetable
  {
  }

  // Between the halves of a shrink, when uvmdealloc has given the frames back and
  // the kernel page table has not changed: a page it mirrored is still mapped there,
  // to a frame that is now free. Any other is not.
  lemma StaleBetween(c: Config, s: Snap, t: Snap, i: nat, u: nat, k: nat, tf: nat, n: nat, mp: set<nat>,
                     lo: nat, v: nat)
    requires ConfigOk(c) && i < |c.kstacks| && Mirrors(c, s, i, u, k, tf, n, mp) && lo <= v < n
    requires Unmaps(s, t, u, lo, n, true)
    ensures Entry(t.pt, u, v) == ZERO_PTE
    ensures if v in mp then Leaf(Entry(t.pt, k, v)) && Entry(t.pt, k, v).ppn in t.free
            else Entry(t.pt, k, v) == ZERO_PTE
  {
    LimTop(c, i);
    MirrorAt(c, s, i, u, k, tf, n, mp, v);
    KernelRoot(s, k, Lim(c), Regions(c, i), Copied(s, u, mp, c.mask));
    ApartUnmaps(s, t, u, lo, n, true);
    hide UserTable, KernelTable, Entry, Regions, Copied, ConfigOk;
  }

  /* The sizes and mirrored pages of one process. */

  predicate Complete(sz: nat, mp: set<nat>) {
    mp == Range(0, Pages(sz))
  }

  // Every page with a byte below the size is mirrored, and no other.
  lemma CompleteMeans(sz: nat, mp: set<nat>)
    ensures Complete(sz, mp) <==> forall v: nat :: v in mp <==> v * 4096 < sz
  {
  }

  // A complete mirror stays complete when the process grows exactly if the copy
  // covers the new bytes.
  lemma GrowCompleteIff(sz: nat, n: nat)
    requires n > 0
    ensures Complete(sz + n, Range(0, Pages(sz)) + GrownPages(sz, n)) <==> Aligns(sz, n)
    ensures Range(0, Pages(sz)) + GrownPages(sz, n) <= Range(0, Pages(sz + n))
  {
    var last := Pages(sz + n) - 1;
    var mp := Range(0, Pages(sz)) + GrownPages(sz, n);
    assert PageOf(sz) <= Pages(sz) <= PageOf(sz) + 1;
    assert forall v: nat :: v in mp <==> v < Pages(sz) || PageOf(sz) <= v < PageOf(sz) + Pages(n);
    assert last in Range(0, Pages(sz + n));
    assert last in mp <==> Aligns(sz, n);
    assert PageOf(sz) + Pages(n) >= last;
    if Aligns(sz, n) {
      assert mp == Range(0, Pages(sz + n));
    }
  }

  lemma ShrinkComplete(sz: nat, newsz: nat)
    requires newsz <= sz
    ensures Complete(newsz, Range(0, Pages(sz)) - Range(Pages(newsz), Pages(sz)))
    ensures forall v: nat | Pages(newsz) <= v < Pages(sz) :: v in Range(0, Pages(sz))
  {
  }

  // A call of growproc or exec.
  datatype Event = Resize(n: int) | Replace(ends: seq<nat>)
  datatype Size = Size(sz: nat, mp: set<nat>)

  // A new process: all of its image mirrored.
  function Whole(sz: nat): Size { Size(sz, Range(0, Pages(sz))) }

  lemma WholeComplete(sz: nat)
    ensures Complete(Whole(sz).sz, Whole(sz).mp)
  {
  }

  // What becomes of a process with memory enough: a size and its mirrored pages, a
  // panic of uvmunmap, or an image over the PLIC.
  datatype Result = Now(s: Size) | Crash | Overruns

  predicate EventOk(e: Event) {
    e.Resize? ==> -0x8000_0000 <= e.n < 0x8000_0000
  }

  // growproc and exec as far as sizes go; what they reject changes nothing.
  ghost function Apply(c: Config, s: Size, e: Event): Result {
    match e
    case Resize(n) =>
      if !(0 <= s.sz + n < c.l.plic) then Now(s)
      else if n > 0 then Now(Size(s.sz + n, s.mp + GrownPages(s.sz, n)))
      else if Range(Pages(s.sz + n), Pages(s.sz)) <= s.mp
      then Now(Size(s.sz + n, s.mp - Range(Pages(s.sz + n), Pages(s.sz))))
      else Crash
    case Replace(ends) =>
      if EmptyFirst(ends) then Now(s)
      else if Pages(ImageSize(ends)) > Lim(c) then Overruns
      else if Range(0, Pages(s.sz)) <= s.mp then Now(Size(ImageSize(ends), Range(0, Pages(ImageSize(ends)))))
      else Crash
  }

  // A growth that is not rejected is by a stretch that the copy covers.
  ghost predicate AlignedStep(c: Config, s: Size, e: Event) {
    e.Resize? && e.n > 0 && s.sz + e.n < c.l.plic ==> Aligns(s.sz, e.n)
  }

  // From a complete mirror nothing crashes, and the mirror stays complete exactly
  // if the step is aligned.
  lemma ApplyComplete(c: Config, s: Size, e: Event)
    requires Complete(s.sz, s.mp)
    ensures !Apply(c, s, e).Crash?
    ensures Apply(c, s, e).Now? ==>
              (Complete(Apply(c, s, e).s.sz, Apply(c, s, e).s.mp) <==> AlignedStep(c, s, e))
  {
    match e
    case Resize(n) =>
      if 0 <= s.sz + n < c.l.plic {
        if n > 0 {
          GrowCompleteIff(s.sz, n);
        } else {
          ShrinkComplete(s.sz, s.sz + n);
        }
      }
    case Replace(ends) =>
  }

  // A run of a process: its sizes and mirrored pages before and after each event.
  ghost predicate Traces(c: Config, trace: seq<Size>, es: seq<Event>) {
    && |trace| == |es| + 1
    && forall j | 0 <= j < |es| :: Apply(c, trace[j], es[j]) == Now(trace[j + 1])
  }

  // Over any run from a complete mirror, the mirror is complete in every state
  // exactly if every step is aligned.
  lemma {:induction false} RunCompleteIff(c: Config, trace: seq<Size>, es: seq<Event>)
    requires Traces(c, trace, es) && Complete(trace[0].sz, trace[0].mp)
    ensures (forall j | 0 <= j <= |es| :: Complete(trace[j].sz, trace[j].mp))
            <==> forall j | 0 <= j < |es| :: AlignedStep(c, trace[j], es[j])
  {
    hide Complete, Apply, AlignedStep;
    if es != [] {
      var n := |es| - 1;
      RunCompleteIff(c, trace[..n + 1], es[..n]);
      assert forall j | 0 <= j <= n :: trace[..n + 1][j] == trace[j];
      assert forall j | 0 <= j < n :: es[..n][j] == es[j];
      assert Apply(c, trace[n], es[n]) == Now(trace[n + 1]);
      if forall j | 0 <= j <= n :: Complete(trace[j].sz, trace[j].mp) {
        ApplyComplete(c, trace[n], es[n]);
      }
    }
  }

  /* Runs of the kernel. */

  ghost function SizeOf(k: Kernel, i: nat): Size
    requires i < |k.proc| && i < |k.mapped|
    reads k
  {
    Size(k.proc[i].sz, k.mapped[i])
  }

  // The pages that are enough for an event.
  function EventNeeds(sz: nat, e: Event): int {
    match e
    case Resize(n) => if n > 0 then ImageNeeds(sz, sz + n) + CopyNeeds(sz, n) else 0
    case Replace(ends) => BuildNeeds(ImageSize(ends)) + CopyNeeds(0, ImageSize(ends))
  }

  // The tests by which growproc and exec refuse an event.
  predicate Rejects(c: Config, sz: nat, e: Event) {
    match e
    case Resize(n) => !(0 <= sz + n < c.l.plic)
    case Replace(ends) => EmptyFirst(ends)
  }

  predicate OverPlic(c: Config, e: Event) {
    e.Replace? && !EmptyFirst(e.ends) && Pages(ImageSize(e.ends)) > Lim(c)
  }

  lemma ApplyIs(c: Config, s: Size, e: Event)
    ensures Rejects(c, s.sz, e) ==> Apply(c, s, e) == Now(s)
    ensures Apply(c, s, e).Overruns? <==> OverPlic(c, e)
  {
  }

  // One event on the kernel does what Apply says, or lacks memory.
  method Perform(k: Kernel, i: nat, e: Event) returns (r: Outcome)
    requires k.Inv() && k.Alive(i) && EventOk(e) && i < |k.mapped|
    modifies k, k.m
    ensures k.m.Inv() && (!r.Panics? ==> |k.proc| == |k.mapped| == old(|k.proc|) && k.Alive(i))
    ensures r.Failed? ==> k.Inv() && SizeOf(k, i) == old(SizeOf(k, i))
    ensures r.Done? && !Apply(k.c, old(SizeOf(k, i)), e).Overruns? ==>
              k.Inv() && Apply(k.c, old(SizeOf(k, i)), e) == Now(SizeOf(k, i))
    ensures r.Failed? ==> Rejects(k.c, old(k.proc[i].sz), e) || |old(k.m.free)| < EventNeeds(old(k.proc[i].sz), e)
    ensures Rejects(k.c, old(k.proc[i].sz), e) ==> r.Failed?
    ensures r.Panics? ==> !Apply(k.c, old(SizeOf(k, i)), e).Now? || |old(k.m.free)| < EventNeeds(old(k.proc[i].sz), e)
    ensures Apply(k.c, old(SizeOf(k, i)), e).Crash? ==> !r.Done? && (e.Resize? ==> r.Panics?)
    ensures e.Replace? && r.Done? ==> forall v: nat | v < Pages(old(k.proc[i].sz)) :: v in old(k.mapped[i])
  {
    hide World, Good, ImageNeeds, CopyNeeds, BuildNeeds, ImageSize, EmptyFirst, Pages, PageOf;
    k.WorldCells();
    LimTop(k.c, i);
    match e
    case Resize(n) => r := k.Growproc(i, n);
    case Replace(ends) => r := k.Exec(i, ends);
  }

  lemma TraceOn(c: Config, trace: seq<Size>, es: seq<Event>, done: nat, s: Size)
    requires done < |es| && Traces(c, trace, es[..done]) && Apply(c, trace[done], es[done]) == Now(s)
    ensures Traces(c, trace + [s], es[..done + 1])
  {
  }

  // The events one after the other, until one panics, overruns the PLIC or lacks
  // memory, of which so many pages are then `left`. The sizes and mirrors passed
  // through are complete throughout exactly if every step is aligned; and then none
  // panics but for lack of memory, nor overruns the PLIC unless there are more pages
  // of memory than below it.
  method Run(k: Kernel, i: nat, es: seq<Event>) returns (done: nat, ghost trace: seq<Size>, ghost left: nat)
    requires k.Inv() && k.Alive(i) && i < |k.mapped| && forall e | e in es :: EventOk(e)
    modifies k, k.m
    ensures k.m.Inv() && done <= |es| && Traces(k.c, trace, es[..done]) && trace[0] == old(SizeOf(k, i))
    ensures done == |es| ==> k.Inv() && i < |k.proc| == |k.mapped| && trace[done] == SizeOf(k, i)
    ensures done < |es| ==> !Apply(k.c, trace[done], es[done]).Now? || left < EventNeeds(trace[done].sz, es[done])
    ensures Complete(trace[0].sz, trace[0].mp) ==>
              ((forall j | 0 <= j <= done :: Complete(trace[j].sz, trace[j].mp))
               <==> forall j | 0 <= j < done :: AlignedStep(k.c, trace[j], es[j]))
    ensures Complete(trace[0].sz, trace[0].mp) && (forall j | 0 <= j < done :: AlignedStep(k.c, trace[j], es[j])) ==>
              done == |es| || left < EventNeeds(trace[done].sz, es[done])
              || (OverPlic(k.c, es[done]) && Lim(k.c) < |k.m.pages|)
  {
    hide World, Good, ConfigOk, Apply, AlignedStep, EventNeeds, Rejects, OverPlic, Complete;
    k.WorldCells();
    trace := [SizeOf(k, i)];
    done, left := 0, 0;
    while done < |es|
      invariant k.m.Inv() && k.Inv() && k.Alive(i) && i < |k.proc| == |k.mapped| && done <= |es|
      invariant Traces(k.c, trace, es[..done]) && trace[0] == old(SizeOf(k, i)) && trace[done] == SizeOf(k, i)
      invariant left <= |k.m.pages|
    {
      var e := es[done];
      ghost var s := SizeOf(k, i);
      assert e in es;
      left := |k.m.free|;
      FreeFits(k.m.S(), k.m.pages);
      ApplyIs(k.c, s, e);
      var rejected := Rejects(k.c, k.proc[i].sz, e);
      var r := Perform(k, i, e);
      if r.Panics? || (r.Failed? && !rejected) || (r.Done? && OverPlic(k.c, e)) {
        break;
      }
      TraceOn(k.c, trace, es, done, SizeOf(k, i));
      trace, done := trace + [SizeOf(k, i)], done + 1;
    }
    RunMeans(k.c, trace, es, done, left);
    if done < |es| && |k.m.pages| <= Lim(k.c) {
      TooLarge(k.c, trace[done].sz, es[done]);
    }
  }

  lemma FreeFits(s: Snap, pages: set<nat>)
    requires Good(s, pages)
    ensures |s.free| <= |pages|
  {
    Fewer(s.free, pages);
    hide Shape;
  }

  // No memory as small as that is enough for an image over the PLIC.
  lemma TooLarge(c: Config, sz: nat, e: Event)
    ensures OverPlic(c, e) ==> Lim(c) < EventNeeds(sz, e)
  {
  }

  lemma RunMeans(c: Config, trace: seq<Size>, es: seq<Event>, done: nat, left: nat)
    requires done <= |es| && Traces(c, trace, es[..done])
    requires done < |es| ==> !Apply(c, trace[done], es[done]).Now? || left < EventNeeds(trace[done].sz, es[done])
    ensures Complete(trace[0].sz, trace[0].mp) ==>
              ((forall j | 0 <= j <= done :: Complete(trace[j].sz, trace[j].mp))
               <==> forall j | 0 <= j < done :: AlignedStep(c, trace[j], es[j]))
    ensures Complete(trace[0].sz, trace[0].mp) && (forall j | 0 <= j < done :: AlignedStep(c, trace[j], es[j])) ==>
              done == |es| || OverPlic(c, es[done]) || left < EventNeeds(trace[done].sz, es[done])
  {
    hide Apply, AlignedStep, EventNeeds, OverPlic, Complete;
    if Complete(trace[0].sz, trace[0].mp) {
      RunCompleteIff(c, trace, es[..done]);
    }
    assert forall j | 0 <= j < done :: es[..done][j] == es[j];
    if done < |es| && Complete(trace[done].sz, trace[done].mp) {
      ApplyComplete(c, trace[done], es[done]);
      ApplyIs(c, trace[done], es[done]);
    }
  }

  // A kernel that has memory enough comes to a hole: the first process grows by a
  // byte, and then by a page, for which vmcopypage copies the byte's page once more.
  // Giving the page back panics, and no exec succeeds.
  method HoleReached(pages: set<nat>, l: Layout, clint: nat, nproc: nat, mask: set<Flag>, e: Event)
    returns (k: Kernel?, r: Outcome, ghost hole: Size)
    requires InMemory(l, pages) && LayoutOk(l, nproc) && ClintOk(l, clint) && MaskOk(mask)
    requires 0 < nproc && 8193 < l.plic
    requires BootNeeds(l, clint, nproc) + UserinitNeeds(l) + 10 <= |pages| && EventOk(e)
    ensures hole == Size(8193, {0, 1}) && !Complete(hole.sz, hole.mp)
    ensures k != null && k.c.l == l
    ensures e == Resize(-4096) ==> r.Panics?
    ensures e.Replace? ==> !r.Done?
  {
    hide World, Good, ConfigOk, BootNeeds, ProcNeeds, ImageNeeds, CopyNeeds, Apply, InMemory;
    var ok;
    k, ok := FirstProcess(pages, l, clint, nproc, mask);
    SmallNeeds();
    r := k.Growproc(0, 1);
    r := k.Growproc(0, 4096);
    hole := SizeOf(k, 0);
    HoleIs(k.c);
    r := Perform(k, 0, e);
  }

  lemma SmallNeeds()
    ensures ImageNeeds(4096, 4097) + CopyNeeds(4096, 1) == 5 && ImageNeeds(4097, 8193) + CopyNeeds(4097, 4096) == 5
    ensures {0} + GrownPages(4096, 1) == {0, 1} && {0, 1} + GrownPages(4097, 4096) == {0, 1}
  {
  }

  lemma HoleIs(c: Config)
    ensures !Complete(8193, {0, 1}) && 2 < Pages(8193)
    ensures 8193 < c.l.plic ==> Apply(c, Size(8193, {0, 1}), Resize(-4096)).Crash?
  {
    assert 2 in Range(0, Pages(8193)) && 2 in Range(Pages(4097), Pages(8193)) && Pages(8193) == 3;
  }

  // With memory larger than that, and enough of it, exec of any image between the
  // PLIC and the trapframe succeeds and breaks the invariant.
  method OverrunReached(pages: set<nat>, l: Layout, clint: nat, nproc: nat, mask: set<Flag>, ends: seq<nat>)
    returns (k: Kernel?)
    requires InMemory(l, pages) && LayoutOk(l, nproc) && ClintOk(l, clint) && MaskOk(mask) && 0 < nproc
    requires !EmptyFirst(ends) && PageOf(l.plic) < Pages(ImageSize(ends)) <= TOP
    requires BootNeeds(l, clint, nproc) + UserinitNeeds(l) + BuildNeeds(ImageSize(ends)) + CopyNeeds(0, ImageSize(ends))
             <= |pages|
    ensures k != null && !k.Inv() && ConfigOk(k.c) && 0 < |k.proc| && 0 < |k.c.kstacks|
    ensures var p := k.proc[0];
            Overrun(k.c, k.m.S(), 0, p.pagetable, p.kpagetable, p.trapframe, Pages(ImageSize(ends)))
  {
    hide World, Good, ConfigOk, BootNeeds, ProcNeeds, BuildNeeds, CopyNeeds, ImageSize, Overrun, Pages, InMemory;
    var ok;
    k, ok := FirstProcess(pages, l, clint, nproc, mask);
    NeedsNotNegative(ImageSize(ends));
    OnePage();
    var r := k.Exec(0, ends);
    assert r.Done?;
    OverrunBreaks(k);
  }

  lemma NeedsNotNegative(sz: nat)
    ensures 0 <= BuildNeeds(sz) && 0 <= CopyNeeds(0, sz)
  {
    NeedsOrder(0, sz);
  }

  lemma OverrunBreaks(k: Kernel)
    requires 0 < |k.proc| == |k.mapped| && k.proc[0].pagetable != 0 && Pages(k.proc[0].sz) > Lim(k.c)
    ensures !k.Inv()
  {
    if k.Inv() {
      WorldHas(k.c, k.m.S(), k.proc, k.mapped, 0);
    }
  }
}
