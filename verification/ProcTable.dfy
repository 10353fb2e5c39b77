/** The invariant of the whole process table: every page table in memory belongs to
    the kernel or to one process, and every process's mirror is known exactly. */
module ProcTable {
  import opened Sv39
  import opened Vm
  import opened Uvm
  import opened UserMem
  import opened CopyPage
  import opened Isolation
  import opened Kvm
  import opened UserTables
  import opened Mirror
  import opened Processes
  import opened Growth

  function RootsOf(p: Proc): set<nat> {
    if p.pagetable == 0 then {} else {p.pagetable, p.kpagetable}
  }

  // A slot of the process table: unused, or a process that mirrors the pages mp.
  ghost predicate Cell(c: Config, s: Snap, i: nat, p: Proc, mp: set<nat>)
    requires ConfigOk(c) && i < |c.kstacks|
  {
    if p.pagetable == 0 then p == NOPROC && mp == {}
    else !p.state.UNUSED? && Mirrors(c, s, i, p.pagetable, p.kpagetable, p.trapframe, Pages(p.sz), mp)
  }

  ghost predicate Cells(c: Config, s: Snap, ps: seq<Proc>, mp: seq<set<nat>>)
    requires ConfigOk(c)
  {
    && |ps| == |mp| == |c.kstacks|
    && forall i | 0 <= i < |ps| :: Cell(c, s, i, ps[i], mp[i])
  }

  // No two processes share a page table, nor does one use the kernel's own.
  ghost predicate Separated(ps: seq<Proc>, kroot: nat) {
    && (forall i, j | 0 <= i < j < |ps| :: RootsOf(ps[i]) !! RootsOf(ps[j]))
    && (forall i | 0 <= i < |ps| :: kroot !in RootsOf(ps[i]))
  }

  // Nothing is lost: all tables and frames are somebody's.
  ghost predicate Tight(s: Snap, ps: seq<Proc>, kroot: nat, base: set<nat>) {
    && (forall q | q in s.loc && s.loc[q].root != kroot :: exists i :: 0 <= i < |ps| && s.loc[q].root in RootsOf(ps[i]))
    && (forall p :: p in base <==> p in s.used && s.used[p] == Held)
    && Labelled(s)
  }

  ghost predicate World(c: Config, s: Snap, ps: seq<Proc>, mp: seq<set<nat>>)
    requires ConfigOk(c)
  {
    && IsRoot(s.loc, c.kroot) && NoFrames(s, c.kroot)
    && Cells(c, s, ps, mp) && Separated(ps, c.kroot) && Tight(s, ps, c.kroot, c.base)
  }

  // The page tables of process i and no others, or new ones.
  ghost predicate Mine(s: Snap, ps: seq<Proc>, i: nat, kroot: nat, roots: set<nat>) {
    && i < |ps| && kroot !in roots && RootsOf(ps[i]) <= roots
    && forall j | 0 <= j < |ps| && j != i :: RootsOf(ps[j]) !! roots
  }

  lemma MirrorsApart(c: Config, s: Snap, s': Snap, roots: set<nat>, i: nat, p: Proc, mp: set<nat>)
    requires ConfigOk(c) && i < |c.kstacks| && Cell(c, s, i, p, mp) && Apart(s, s', roots) && RootsOf(p) !! roots
    ensures Cell(c, s', i, p, mp)
  {
    if p.pagetable != 0 {
      var u, k, n := p.pagetable, p.kpagetable, Pages(p.sz);
      var tramp := PageOf(c.l.trampoline);
      var f := Copied(s, u, mp, c.mask);
      assert u in RootsOf(p) && k in RootsOf(p);
      UserRoot(s, u, n, p.trapframe, tramp, true);
      ApartSame(s, s', roots, u);
      UserKept(s, s', u, n, p.trapframe, tramp, true);
      KernelKept(s, s', roots, k, Lim(c), Regions(c, i), f);
      MpBelow(mp, n, n);
      hide UserTable, KernelTable, Regions, Copied, Apart, Entry, Pages, PageOf, ConfigOk;
      CopiedSame(s, s', u, mp, c.mask);
    }
  }

  lemma CellsNext(c: Config, s: Snap, s': Snap, ps: seq<Proc>, mp: seq<set<nat>>, i: nat, p: Proc, m: set<nat>,
                  roots: set<nat>)
    requires ConfigOk(c) && Cells(c, s, ps, mp) && Mine(s, ps, i, c.kroot, roots) && Apart(s, s', roots)
    requires i < |ps| && i < |c.kstacks| && Cell(c, s', i, p, m)
    ensures Cells(c, s', ps[i := p], mp[i := m])
  {
    hide Cell, Apart, ConfigOk;
    forall j | 0 <= j < |ps| && j != i
      ensures Cell(c, s', j, ps[j], mp[j])
    {
      MirrorsApart(c, s, s', roots, j, ps[j], mp[j]);
    }
  }

  lemma TightNext(s: Snap, s': Snap, ps: seq<Proc>, i: nat, p: Proc, kroot: nat, base: set<nat>, roots: set<nat>)
    requires Tight(s, ps, kroot, base) && Mine(s, ps, i, kroot, roots) && Apart(s, s', roots) && Labelled(s')
    requires Gone(s', roots - RootsOf(p))
    ensures Tight(s', ps[i := p], kroot, base)
  {
    hide Labelled, Entry;
    var ps' := ps[i := p];
    forall q | q in s'.loc && s'.loc[q].root != kroot
      ensures exists j :: 0 <= j < |ps'| && s'.loc[q].root in RootsOf(ps'[j])
    {
      var r := s'.loc[q].root;
      if r in roots {
        assert r in RootsOf(ps'[i]);
      } else {
        assert q in s.loc && s.loc[q].root == r;
        var j :| 0 <= j < |ps| && r in RootsOf(ps[j]);
        assert j != i;
        assert r in RootsOf(ps'[j]);
      }
    }
    forall x
      ensures x in base <==> x in s'.used && s'.used[x] == Held
    {
    }
  }

  lemma SeparatedNext(s: Snap, ps: seq<Proc>, i: nat, p: Proc, kroot: nat, roots: set<nat>)
    requires Separated(ps, kroot) && Mine(s, ps, i, kroot, roots) && RootsOf(p) <= roots
    ensures Separated(ps[i := p], kroot)
  {
  }

  // An operation that touched only page tables of process i, old or new, and left
  // its slot in order, keeps the whole table in order.
  lemma WorldNext(c: Config, s: Snap, s': Snap, ps: seq<Proc>, mp: seq<set<nat>>, i: nat, p: Proc, m: set<nat>,
                  roots: set<nat>)
    requires ConfigOk(c) && World(c, s, ps, mp) && Mine(s, ps, i, c.kroot, roots) && Apart(s, s', roots)
    requires i < |c.kstacks| && Cell(c, s', i, p, m) && RootsOf(p) <= roots
    requires Gone(s', roots - RootsOf(p)) && Labelled(s')
    ensures World(c, s', ps[i := p], mp[i := m])
  {
    CellsNext(c, s, s', ps, mp, i, p, m, roots);
    TightNext(s, s', ps, i, p, c.kroot, c.base, roots);
    SeparatedNext(s, ps, i, p, c.kroot, roots);
    ApartSame(s, s', roots, c.kroot);
    hide Cells, Tight, Separated, Apart, Entry, Cell, ConfigOk;
    assert NoFrames(s', c.kroot);
  }

  // New page tables are nobody else's.
  lemma FreshMine(c: Config, s: Snap, ps: seq<Proc>, mp: seq<set<nat>>, i: nat, roots: set<nat>)
    requires ConfigOk(c) && World(c, s, ps, mp) && i < |ps| && RootsOf(ps[i]) <= roots
    requires forall r | r in roots :: r in RootsOf(ps[i]) || r !in s.loc
    ensures Mine(s, ps, i, c.kroot, roots)
  {
    forall j | 0 <= j < |ps| && j != i
      ensures RootsOf(ps[j]) !! roots
    {
      RootsExist(c, s, ps, mp, j);
      assert RootsOf(ps[i]) !! RootsOf(ps[j]) by {
        if i < j { } else { assert RootsOf(ps[j]) !! RootsOf(ps[i]); }
      }
      hide RootsOf, Cells;
    }
    hide Cells, Tight;
  }

  lemma RootsExist(c: Config, s: Snap, ps: seq<Proc>, mp: seq<set<nat>>, j: nat)
    requires ConfigOk(c) && World(c, s, ps, mp) && j < |ps|
    ensures forall r | r in RootsOf(ps[j]) :: r in s.loc
  {
  }

  // With no process left, all pages but the kernel's own are free.
  lemma NobodyLeft(c: Config, s: Snap, ps: seq<Proc>, mp: seq<set<nat>>, pages: set<nat>)
    requires ConfigOk(c) && World(c, s, ps, mp) && Good(s, pages)
    requires forall i | 0 <= i < |ps| :: ps[i].pagetable == 0
    ensures forall p :: p in s.free <==> p in pages && p !in c.base && !(p in s.loc && s.loc[p].root == c.kroot)
  {
  }

  lemma WorldHas(c: Config, s: Snap, ps: seq<Proc>, mp: seq<set<nat>>, i: nat)
    requires ConfigOk(c) && World(c, s, ps, mp) && i < |ps|
    ensures |ps| == |mp| == |c.kstacks| && Cell(c, s, i, ps[i], mp[i]) && Labelled(s)
    ensures ps[i].pagetable != 0 ==>
              Mirrors(c, s, i, ps[i].pagetable, ps[i].kpagetable, ps[i].trapframe, Pages(ps[i].sz), mp[i])
  {
  }

  // Frames of new or changed page tables of a mirrored process have an owner.
  lemma LabelledMirrors(c: Config, s: Snap, s': Snap, i: nat, u: nat, k: nat, tf: nat, n: nat, mp: set<nat>)
    requires ConfigOk(c) && i < |c.kstacks| && Labelled(s) && Apart(s, s', {u, k}) && Mirrors(c, s', i, u, k, tf, n, mp)
    ensures Labelled(s')
  {
    MirrorsUserTable(c, s', i, u, k, tf, n, mp);
    UserRoot(s', u, n, tf, PageOf(c.l.trampoline), true);
    hide Apart, Mirrors, UserTable, ConfigOk, PageOf, Labelled;
    forall p | p in s'.used && Of(s'.used[p], {u, k})
      ensures IsRoot(s'.loc, s'.used[p].root)
    {
      assert !Of(s'.used[p], {k});
    }
    LabelledApart(s, s', {u, k});
  }

  // A free slot gets a new process.
  lemma NewProc(c: Config, s: Snap, s': Snap, ps: seq<Proc>, mp: seq<set<nat>>, i: nat, p: Proc, m: set<nat>)
    requires ConfigOk(c) && World(c, s, ps, mp) && i < |ps| && i < |c.kstacks| && ps[i] == NOPROC && !p.state.UNUSED?
    requires Mirrors(c, s', i, p.pagetable, p.kpagetable, p.trapframe, Pages(p.sz), m) && Labelled(s')
    requires p.pagetable !in s.loc && p.kpagetable !in s.loc && Apart(s, s', {p.pagetable, p.kpagetable})
    ensures i < |mp| && World(c, s', ps[i := p], mp[i := m])
  {
    var roots := {p.pagetable, p.kpagetable};
    WorldHas(c, s, ps, mp, i);
    FreshMine(c, s, ps, mp, i, roots);
    assert RootsOf(p) == roots && roots - RootsOf(p) == {};
    hide World, Mine, Apart, Labelled, ConfigOk, RootsOf, UserTable, KernelTable;
    assert Gone(s', {});
    WorldNext(c, s, s', ps, mp, i, p, m, roots);
  }

  // A process keeps its page tables but not what is in them.
  lemma SameProc(c: Config, s: Snap, s': Snap, ps: seq<Proc>, mp: seq<set<nat>>, i: nat, p: Proc, m: set<nat>)
    requires ConfigOk(c) && World(c, s, ps, mp) && i < |ps|
    requires i < |c.kstacks| && ps[i].pagetable != 0 && !p.state.UNUSED?
    requires p.pagetable == ps[i].pagetable && p.kpagetable == ps[i].kpagetable
    requires Mirrors(c, s', i, p.pagetable, p.kpagetable, p.trapframe, Pages(p.sz), m)
    requires Apart(s, s', {p.pagetable, p.kpagetable})
    ensures i < |mp| && World(c, s', ps[i := p], mp[i := m])
  {
    var roots := {p.pagetable, p.kpagetable};
    WorldHas(c, s, ps, mp, i);
    assert RootsOf(p) == RootsOf(ps[i]) == roots && roots - RootsOf(p) == {};
    FreshMine(c, s, ps, mp, i, roots);
    LabelledMirrors(c, s, s', i, p.pagetable, p.kpagetable, p.trapframe, Pages(p.sz), m);
    assert p.pagetable != 0;
    hide World, Mine, Apart, Labelled, ConfigOk, RootsOf, UserTable, KernelTable, Mirrors;
    assert Gone(s', {});
    WorldNext(c, s, s', ps, mp, i, p, m, roots);
  }

  // A process goes over to a new user page table; the old one is gone.
  lemma NewImage(c: Config, s: Snap, s': Snap, ps: seq<Proc>, mp: seq<set<nat>>, i: nat, p: Proc, m: set<nat>)
    requires ConfigOk(c) && World(c, s, ps, mp) && i < |ps|
    requires i < |c.kstacks| && ps[i].pagetable != 0 && !p.state.UNUSED?
    requires p.pagetable !in s.loc && p.kpagetable == ps[i].kpagetable
    requires Mirrors(c, s', i, p.pagetable, p.kpagetable, p.trapframe, Pages(p.sz), m) && Labelled(s')
    requires Apart(s, s', {ps[i].pagetable, p.pagetable, p.kpagetable}) && Gone(s', {ps[i].pagetable})
    ensures i < |mp| && World(c, s', ps[i := p], mp[i := m])
  {
    var roots := {ps[i].pagetable, p.pagetable, p.kpagetable};
    WorldHas(c, s, ps, mp, i);
    RootsExist(c, s, ps, mp, i);
    assert p.pagetable != 0;
    assert ps[i].pagetable != p.kpagetable;
    FreshMine(c, s, ps, mp, i, roots);
    assert roots - RootsOf(p) == {ps[i].pagetable};
    hide World, Mine, Apart, Labelled, ConfigOk, UserTable, KernelTable, Mirrors;
    WorldNext(c, s, s', ps, mp, i, p, m, roots);
  }

  // A process is gone.
  lemma NoProc(c: Config, s: Snap, s': Snap, ps: seq<Proc>, mp: seq<set<nat>>, i: nat)
    requires ConfigOk(c) && World(c, s, ps, mp) && i < |ps| && i < |c.kstacks| && ps[i].pagetable != 0 && Labelled(s')
    requires Apart(s, s', RootsOf(ps[i])) && Gone(s', RootsOf(ps[i]))
    ensures i < |mp| && World(c, s', ps[i := NOPROC], mp[i := {}])
  {
    var roots := RootsOf(ps[i]);
    WorldHas(c, s, ps, mp, i);
    FreshMine(c, s, ps, mp, i, roots);
    assert roots - RootsOf(NOPROC) == roots;
    hide World, Mine, Apart, Labelled, ConfigOk, Mirrors;
    WorldNext(c, s, s', ps, mp, i, NOPROC, {}, roots);
  }

  // Nothing but empty tables, if anything, is new.
  lemma WorldSame(c: Config, s: Snap, s': Snap, ps: seq<Proc>, mp: seq<set<nat>>)
    requires ConfigOk(c) && World(c, s, ps, mp) && Apart(s, s', {}) && Labelled(s')
    ensures World(c, s', ps, mp)
  {
    ApartSame(s, s', {}, c.kroot);
    forall i | 0 <= i < |ps|
      ensures Cell(c, s', i, ps[i], mp[i])
    {
      MirrorsApart(c, s, s', {}, i, ps[i], mp[i]);
    }
    TightSame(s, s', ps, c.kroot, c.base);
    hide Cell, Apart, Entry, ConfigOk, Tight;
  }

  lemma TightSame(s: Snap, s': Snap, ps: seq<Proc>, kroot: nat, base: set<nat>)
    requires Tight(s, ps, kroot, base) && Apart(s, s', {}) && Labelled(s')
    ensures Tight(s', ps, kroot, base)
  {
  }
}
