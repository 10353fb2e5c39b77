/** userinit, fork, growproc, exec and freeproc over the whole process table. */
module Syscalls {
  import opened Sv39
  import opened Vm
  import opened Uvm
  import opened UserMem
  import opened CopyPage
  import opened Isolation
  import opened Kvm
  import opened UserTables
  import opened Mirror
  import opened Processes
  import opened Growth
  import opened ProcTable

  // The 32-bit unsigned value of a sum.
  function U32(x: int): nat { x % 0x1_0000_0000 }

  // growproc's test on the unsigned sum rejects exactly the sizes out of range,
  // and its unsigned differences recover the old size.
  lemma GrowTest(sz: nat, n: int, plic: nat)
    requires sz <= plic <= 0x8000_0000 && -0x8000_0000 <= n < 0x8000_0000
    ensures U32(sz + n) >= plic <==> !(0 <= sz + n < plic)
    ensures 0 <= sz + n < plic ==> U32(sz + n) == sz + n && U32(U32(sz + n) - n) == sz
  {
  }

  // A size below the PLIC takes up pages below it.
  lemma BelowPlic(c: Config, sz: nat)
    requires ConfigOk(c) && sz <= c.l.plic
    ensures Pages(sz) <= Lim(c)
  {
  }

  predicate AllUsed(ps: seq<Proc>) {
    forall j | 0 <= j < |ps| :: !ps[j].state.UNUSED?
  }

  // The pages that userinit takes.
  function UserinitNeeds(l: Layout): nat
    requires l.kernbase <= l.etext <= l.physstop
  {
    ProcNeeds(l) + 5
  }

  // The pages growproc copies when it grows from sz by n.
  function GrownPages(sz: nat, n: nat): set<nat> {
    Range(PageOf(sz), PageOf(sz) + Pages(n))
  }

  // The copy goes over as many pages as n bytes begin, from the page of the old end on.
  lemma PagesAre(sz: nat, n: nat, lo: nat, hi: nat, v: nat)
    ensures v in GrownPages(sz, n) <==> sz / 4096 <= v < sz / 4096 + (n + 4095) / 4096
    ensures v in Range(lo, hi) <==> lo <= v < hi
  {
  }

  class Kernel {
    const m: Memory
    const c: Config
    var proc: seq<Proc>
    ghost var mapped: seq<set<nat>>

    ghost predicate Inv()
      reads this, m
    {
      m.Inv() && ConfigOk(c) && World(c, m.S(), proc, mapped)
    }

    // p is an index of a process.
    predicate Alive(i: nat)
      reads this
    {
      i < |proc| && proc[i].pagetable != 0
    }

    constructor (m: Memory, c: Config)
      requires m.Inv() && ConfigOk(c)
      requires World(c, m.S(), seq(|c.kstacks|, _ => NOPROC), seq(|c.kstacks|, _ => {}))
      ensures Inv() && this.m == m && this.c == c
      ensures proc == seq(|c.kstacks|, _ => NOPROC)
    {
      this.m, this.c := m, c;
      proc, mapped := seq(|c.kstacks|, _ => NOPROC), seq(|c.kstacks|, _ => {});
    }

    // The search of allocproc for an UNUSED slot; |proc| if there is none.
    method FindUnused() returns (i: nat)
      requires Inv()
      ensures i <= |proc| == |c.kstacks|
      ensures i < |proc| ==> proc[i] == NOPROC
      ensures forall j | 0 <= j < i :: !proc[j].state.UNUSED?
    {
      hide Inv;
      WorldCells();
      i := 0;
      while i < |proc| && !proc[i].state.UNUSED?
        invariant i <= |proc|
        invariant forall j | 0 <= j < i :: !proc[j].state.UNUSED?
      {
        i := i + 1;
      }
    }

    lemma WorldCells()
      requires Inv()
      ensures |proc| == |mapped| == |c.kstacks|
      ensures forall i | 0 <= i < |proc| :: proc[i].state.UNUSED? ==> proc[i] == NOPROC
    {
    }

    // userinit. Lack of memory, or of a free slot, is a crash here.
    method Userinit() returns (ok: bool, i: nat)
      requires Inv()
      modifies this, m
      ensures m.Inv()
      ensures ok ==> Inv() && i < |old(proc)| == |old(mapped)| && old(proc)[i] == NOPROC
      ensures ok ==> forall j | 0 <= j < i :: !old(proc)[j].state.UNUSED?
      ensures ok ==> |proc| == |old(proc)| && proc == old(proc)[i := proc[i]] && mapped == old(mapped)[i := {0}]
                     && proc[i].state.RUNNABLE? && proc[i].sz == PGSIZE && proc[i].pagetable != 0
      ensures ok ==> Entry(m.pt, proc[i].pagetable, 0).flags == {V, R, W, X, U}
                     && Apart(old(m.S()), m.S(), {proc[i].pagetable, proc[i].kpagetable})
      ensures !AllUsed(old(proc)) ==> Enough(ok, UserinitNeeds(c.l), old(m.free), m.free)
    {
      hide ProcNeeds, Good, World, ConfigOk, Mirrors, Labelled, Apart, Pages, Lim;
      ghost var s := m.S();
      WorldCells();
      i := FindUnused();
      if i == |proc| {
        return false, i;
      }
      WorldHas(c, s, proc, mapped, i);
      AtLeastTwo(c);
      var np;
      ok, np := UserinitTables(m, c, i);
      if ok {
        OnePage();
        MirrorsRoots(c, m.S(), i, np.pagetable, np.kpagetable, np.trapframe, 1, {0});
        np := np.(state := RUNNABLE);
        NewProc(c, s, m.S(), proc, mapped, i, np, {0});
        proc, mapped := proc[i := np], mapped[i := {0}];
      }
    }

    // fork. The child is a copy of the parent, wholly mirrored.
    method Fork(i: nat) returns (r: Outcome, j: nat)
      requires Inv() && Alive(i)
      modifies this, m
      ensures m.Inv() && (!r.Panics? ==> Inv())
      ensures r.Failed? ==> proc == old(proc) && mapped == old(mapped) && Apart(old(m.S()), m.S(), {})
                            && m.free == old(m.free)
      ensures r.Done? ==>
                && j < |old(proc)| == |proc| && |mapped| == |old(mapped)| == |proc| && old(proc)[j] == NOPROC && j != i
                && proc == old(proc)[j := proc[j]] && proc[j].state.RUNNABLE? && proc[j].sz == old(proc[i].sz)
                && mapped == old(mapped)[j := Range(0, Pages(proc[j].sz))]
                && (forall v: nat | v < Pages(proc[j].sz) ::
                      Entry(m.pt, proc[j].pagetable, v).flags == Entry(old(m.pt), old(proc[i].pagetable), v).flags)
                && Apart(old(m.S()), m.S(), {proc[j].pagetable, proc[j].kpagetable})
      ensures r.Panics? ==> m.free == {}
      ensures if AllUsed(old(proc)) then r.Failed?
              else Enough(r.Done?, ForkNeeds(c.l, old(proc[i].sz)), old(m.free), m.free)
      ensures r.Failed? && !AllUsed(old(proc)) ==> |old(m.free)| < ProcNeeds(c.l) + ImageNeeds(0, old(proc[i].sz))
    {
      hide ForkNeeds, ProcNeeds, ImageNeeds;
      hide Good, World, ConfigOk, Mirrors, Labelled, Apart, Pages, Lim, Range, UserTable, PageOf, Entry;
      ghost var s := m.S();
      WorldCells();
      ApartRefl(s, {});
      j := FindUnused();
      if j == |proc| {
        return Failed, j;
      }
      WorldHas(c, s, proc, mapped, i);
      WorldHas(c, s, proc, mapped, j);
      var p := proc[i];
      MirrorsUserTable(c, s, i, p.pagetable, p.kpagetable, p.trapframe, Pages(p.sz), mapped[i]);
      MirrorsSize(c, s, i, p.pagetable, p.kpagetable, p.trapframe, Pages(p.sz), mapped[i]);
      var np;
      r, np := ForkTables(m, c, j, p.pagetable, p.sz, p.trapframe);
      if r.Failed? {
        WorldSame(c, s, m.S(), proc, mapped);
      } else if r.Done? {
        np := np.(state := RUNNABLE);
        NewProc(c, s, m.S(), proc, mapped, j, np, Range(0, Pages(np.sz)));
        proc, mapped := proc[j := np], mapped[j := Range(0, Pages(np.sz))];
      }
    }

    // growproc for process i and any 32-bit n.
    method Growproc(i: nat, n: int) returns (r: Outcome)
      requires Inv() && Alive(i) && -0x8000_0000 <= n < 0x8000_0000
      modifies this, m
      ensures m.Inv() && (!r.Panics? ==> Inv())
      ensures r.Failed? ==> proc == old(proc) && mapped == old(mapped)
      ensures !(0 <= old(proc[i].sz) + n < c.l.plic) ==> r.Failed? && m.S() == old(m.S())
      ensures r.Done? ==> |mapped| == |old(proc)| && 0 <= old(proc[i].sz) + n < c.l.plic
                          && proc == old(proc)[i := old(proc[i]).(sz := old(proc[i].sz) + n)]
      ensures r.Failed? || (r.Done? && n > 0) ==>
                SameEntries(old(m.pt), m.pt, old(proc[i].pagetable), Pages(old(proc[i].sz)))
      ensures r.Done? && n > 0 ==>
                AllUser(m.pt, old(proc[i].pagetable), Pages(old(proc[i].sz)), Pages(old(proc[i].sz) + n))
      ensures r.Done? && n <= 0 ==>
                SameEntries(old(m.pt), m.pt, old(proc[i].pagetable), Pages(old(proc[i].sz) + n))
      ensures !r.Panics? ==> Apart(old(m.S()), m.S(), {old(proc[i].pagetable), old(proc[i].kpagetable)})
      ensures r.Done? && n > 0 ==> mapped == old(mapped)[i := old(mapped[i]) + GrownPages(old(proc[i].sz), n)]
      ensures r.Done? && n <= 0 ==>
                mapped == old(mapped)[i := old(mapped[i]) - Range(Pages(old(proc[i].sz) + n), Pages(old(proc[i].sz)))]
      ensures r.Panics? && n > 0 ==> m.free == {}
      ensures n > 0 && old(proc[i].sz) + n < c.l.plic ==>
                && Enough(r.Done?, ImageNeeds(old(proc[i].sz), old(proc[i].sz) + n) + CopyNeeds(old(proc[i].sz), n),
                          old(m.free), m.free)
                && (r.Failed? ==> |old(m.free)| < ImageNeeds(old(proc[i].sz), old(proc[i].sz) + n))
      ensures n <= 0 && 0 <= old(proc[i].sz) + n < c.l.plic ==> !r.Failed?
      ensures n <= 0 && 0 <= old(proc[i].sz) + n < c.l.plic ==>
                (r.Panics? <==> exists v: nat ::
                                  Pages(old(proc[i].sz) + n) <= v < Pages(old(proc[i].sz)) && v !in old(mapped[i]))
    {
      hide ImageNeeds, CopyNeeds, SameEntries, AllUser;
      hide Good, World, ConfigOk, Mirrors, Labelled, Apart, Pages, Lim, Range, UserTable, PageOf, U32;
      ghost var s := m.S();
      WorldCells();
      WorldHas(c, s, proc, mapped, i);
      var p := proc[i];
      SizeOk(c, s, i, p, mapped[i]);
      GrowTest(p.sz, n, c.l.plic);
      // refused: a size of the PLIC or more
      SameRefl(s, p.pagetable, p.kpagetable, Pages(p.sz));
      if U32(p.sz + n) >= c.l.plic {
        return Failed;
      }
      if n > 0 {
        BelowPlic(c, p.sz + n);
        var sz;
        r, sz := GrowTables(m, c, i, p, n, mapped[i]);
        if r.Done? {
          SameProc(c, s, m.S(), proc, mapped, i, p.(sz := sz), mapped[i] + GrownPages(p.sz, n));
          proc, mapped := proc[i := p.(sz := sz)], mapped[i := mapped[i] + GrownPages(p.sz, n)];
        } else if r.Failed? {
          SameProc(c, s, m.S(), proc, mapped, i, p, mapped[i]);
          assert proc[i := p] == proc && mapped[i := mapped[i]] == mapped;
        }
      } else if n < 0 {
        var sz := U32(p.sz + n);
        r := ShrinkTables(m, c, i, p, sz, mapped[i]);
        if r.Done? {
          ghost var left := mapped[i] - Range(Pages(sz), Pages(p.sz));
          SameProc(c, s, m.S(), proc, mapped, i, p.(sz := sz), left);
          proc, mapped := proc[i := p.(sz := sz)], mapped[i := left];
        }
      } else {
        NoRange(Pages(p.sz));
        assert mapped[i] - {} == mapped[i];
        assert proc[i := p.(sz := p.sz)] == proc && mapped[i := mapped[i]] == mapped;
        r := Done;
      }
    }

    // exec of a program whose segments end at these addresses, wherever that is. An
    // image that reaches the PLIC is not refused.
    method Exec(i: nat, ends: seq<nat>) returns (r: Outcome)
      requires Inv() && Alive(i)
      modifies this, m
      ensures m.Inv()
      ensures r.Failed? ==> Inv() && proc == old(proc) && mapped == old(mapped) && Apart(old(m.S()), m.S(), {})
      ensures r.Done? ==> |proc| == |old(proc)| == |mapped| == |c.kstacks| && ConfigOk(c)
                          && proc == old(proc)[i := proc[i]]
                          && proc[i] == old(proc[i]).(pagetable := proc[i].pagetable, sz := ImageSize(ends))
                          && mapped == old(mapped)[i := Range(0, Pages(proc[i].sz))]
      ensures r.Done? ==> Pages(ImageSize(ends)) < |m.pages|
      ensures r.Done? && Pages(ImageSize(ends)) <= Lim(c) ==> Inv()
      ensures !r.Panics? && |m.pages| <= Lim(c) ==> Inv()
      ensures r.Done? ==> Segmented(m.pt, proc[i].pagetable, proc[i].sz, ends)
      ensures r.Done? && Pages(ImageSize(ends)) > Lim(c) ==>
                Overrun(c, m.S(), i, proc[i].pagetable, proc[i].kpagetable, proc[i].trapframe, Pages(proc[i].sz))
      ensures r.Done? ==> Apart(old(m.S()), m.S(), {old(proc[i].pagetable), proc[i].pagetable, proc[i].kpagetable})
      ensures r.Done? ==> Alive(i) && Pages(ImageSize(ends)) <= TOP
      ensures EmptyFirst(ends) ==> r.Failed?
      ensures r.Done? ==> forall v: nat | v < Pages(old(proc[i].sz)) :: v in old(mapped[i])
      ensures r.Failed? && !EmptyFirst(ends) ==> |old(m.free)| < BuildNeeds(ImageSize(ends))
      ensures r.Panics? ==>
                || |old(m.free)| < BuildNeeds(ImageSize(ends)) + CopyNeeds(0, ImageSize(ends))
                || (TOP < Pages(ImageSize(ends)) && TOP < |m.pages|)
                || exists v: nat :: v < Pages(old(proc[i].sz)) && v !in old(mapped[i])
    {
      hide ImageSize, BuildNeeds, CopyNeeds, Overrun, EmptyFirst, Segmented, SameEntries;
      hide Good, World, ConfigOk, Mirrors, Labelled, Apart, Pages, Lim, Range, UserTable, PageOf, Imaged, Gone, Entry;
      ghost var s := m.S();
      WorldCells();
      WorldHas(c, s, proc, mapped, i);
      var p := proc[i];
      var u, sz;
      r, u, sz := BuildImage(m, c, p.trapframe, ends);
      ghost var s1 := m.S();
      if r.Failed? {
        WorldSame(c, s, s1, proc, mapped);
      }
      if !r.Done? {
        return;
      }
      ImageApart(c, s, s1, i, p, mapped[i], u, sz);
      r := ExecTables(m, c, i, p, u, sz, mapped[i]);
      if r.Done? {
        ghost var all := Range(0, Pages(sz));
        ExecOutside(s, s1, m.S(), p.pagetable, u, p.kpagetable);
        SegmentedKept(s1.pt, m.pt, u, sz, ends);
        if Pages(sz) <= Lim(c) {
          NewImage(c, s, m.S(), proc, mapped, i, p.(pagetable := u, sz := sz), all);
        }
        proc, mapped := proc[i := p.(pagetable := u, sz := sz)], mapped[i := all];
      }
    }

    // freeproc, as wait calls it for a process that has ended.
    method Freeproc(i: nat)
      requires Inv() && Alive(i)
      modifies this, m
      ensures Inv() && i < |old(mapped)| && proc == old(proc)[i := NOPROC] && mapped == old(mapped)[i := {}]
      ensures Apart(old(m.S()), m.S(), RootsOf(old(proc[i]))) && Gone(m.S(), RootsOf(old(proc[i])))
    {
      hide Good, World, ConfigOk, Mirrors, Labelled, Apart, Pages, Gone, ProcOk;
      ghost var s := m.S();
      WorldCells();
      WorldHas(c, s, proc, mapped, i);
      var p := proc[i];
      MirrorsIs(c, s, i, p, mapped[i]);
      FreeTables(m, c, i, p, mapped[i]);
      NoProc(c, s, m.S(), proc, mapped, i);
      proc, mapped := proc[i := NOPROC], mapped[i := {}];
    }
  }

  lemma SameRefl(s: Snap, u: nat, k: nat, n: nat)
    ensures SameEntries(s.pt, s.pt, u, n) && Apart(s, s, {u, k})
  {
  }

  lemma MirrorsRoots(c: Config, s: Snap, i: nat, u: nat, k: nat, tf: nat, n: nat, mp: set<nat>)
    requires ConfigOk(c) && i < |c.kstacks| && Mirrors(c, s, i, u, k, tf, n, mp)
    ensures u != 0 && k != 0
  {
  }

  lemma AtLeastTwo(c: Config)
    requires ConfigOk(c)
    ensures 2 <= Lim(c)
  {
  }

  lemma OnePage()
    ensures Pages(PGSIZE) == 1
  {
  }

  lemma NoRange(n: nat)
    ensures Range(n, n) == {}
  {
  }

  lemma MirrorsSize(c: Config, s: Snap, i: nat, u: nat, k: nat, tf: nat, n: nat, mp: set<nat>)
    requires ConfigOk(c) && i < |c.kstacks| && Mirrors(c, s, i, u, k, tf, n, mp)
    ensures n <= Lim(c)
  {
  }

  lemma SizeOk(c: Config, s: Snap, i: nat, p: Proc, mp: set<nat>)
    requires ConfigOk(c) && i < |c.kstacks| && Mirrors(c, s, i, p.pagetable, p.kpagetable, p.trapframe, Pages(p.sz), mp)
    ensures p.sz <= c.l.plic <= 0x8000_0000
  {
  }

  // A new image leaves the process as it was.
  lemma ImageApart(c: Config, s: Snap, s1: Snap, i: nat, p: Proc, mp: set<nat>, u: nat, sz: nat)
    requires ConfigOk(c) && i < |c.kstacks| && Cell(c, s, i, p, mp) && p.pagetable != 0
    requires Imaged(s, s1, u, sz, p.trapframe, PageOf(c.l.trampoline)) && u !in s.loc && u != 0
    ensures UserTable(s1, u, Pages(sz), p.trapframe, PageOf(c.l.trampoline), false) && Labelled(s1) && Apart(s, s1, {u})
    ensures u != p.pagetable && u != p.kpagetable
    ensures Mirrors(c, s1, i, p.pagetable, p.kpagetable, p.trapframe, Pages(p.sz), mp)
  {
    var tramp := PageOf(c.l.trampoline);
    UserRoot(s, p.pagetable, Pages(p.sz), p.trapframe, tramp, true);
    KernelRoot(s, p.kpagetable, Lim(c), Regions(c, i), Copied(s, p.pagetable, mp, c.mask));
    hide Mirrors, Labelled, Apart, ConfigOk, UserTable, Pages, PageOf;
    MirrorsApart(c, s, s1, {u}, i, p, mp);
  }

  lemma SegmentedKept(pt: Heap, pt': Heap, u: nat, sz: nat, ends: seq<nat>)
    requires Segmented(pt, u, sz, ends) && SameEntries(pt, pt', u, VPNS) && Pages(sz) <= TOP
    ensures Segmented(pt', u, sz, ends)
  {
    hide Entry;
  }

  lemma ExecOutside(s: Snap, s1: Snap, s': Snap, u: nat, u2: nat, k: nat)
    requires Apart(s, s1, {u2}) && Apart(s1, s', {u, u2, k})
    ensures Apart(s, s', {u, u2, k})
  {
  }
}
