/** The virtual-memory operations on page tables kept in physical memory. */
module Vm {
  import opened Sv39

  // What a page that is neither free nor a page table is used for: held by
  // kernel code, or the user frame behind a virtual page of a page table.
  datatype Use = Held | Frame(root: nat, vpn: nat)

  // A snapshot of memory.
  datatype Snap = Snap(pt: Heap, loc: map<nat, Loc>, free: set<nat>, used: map<nat, Use>)

  // Every page is free, a page table or in use, and only one of them.
  ghost predicate Accounts(s: Snap, pages: set<nat>) {
    && 0 !in pages
    && (forall p | p in s.free :: p !in s.pt && p !in s.used)
    && (forall p | p in s.pt :: p !in s.used)
    && (forall p :: p in pages <==> p in s.free || p in s.pt || p in s.used)
  }

  lemma AccountsKeys(s: Snap, s': Snap, pages: set<nat>)
    requires Accounts(s, pages) && s'.pt.Keys == s.pt.Keys && s'.free == s.free && s'.used == s.used
    ensures Accounts(s', pages)
  {
  }

  lemma AccountsHooked(s: Snap, s': Snap, pages: set<nat>, n: nat)
    requires Accounts(s, pages) && n in s.used
    requires s'.pt.Keys == s.pt.Keys + {n} && s'.free == s.free && s'.used == s.used - {n}
    ensures Accounts(s', pages)
  {
  }

  ghost predicate Good(s: Snap, pages: set<nat>) {
    Accounts(s, pages) && Shape(s.pt, s.loc)
  }

  // All translations are as before, except those of `root` from page lo to hi.
  ghost predicate Outside(s: Snap, s': Snap, root: nat, lo: nat, hi: nat) {
    forall r, v: nat | IsRoot(s.loc, r) && v < VPNS && !(r == root && lo <= v < hi) ::
      Entry(s'.pt, r, v) == Entry(s.pt, r, v)
  }

  // No table went away or moved, and new tables are in the tree of `root`.
  ghost predicate Kept(s: Snap, s': Snap, root: nat) {
    && (forall p | p in s.loc :: p in s'.loc && s'.loc[p] == s.loc[p])
    && (forall p | p in s'.loc && p !in s.loc :: s'.loc[p].root == root && s'.loc[p].level < 2)
  }

  // Tables on the way to a page stay where they are.
  ghost predicate PathsKept(s: Snap, s': Snap) {
    forall r, v: nat | IsRoot(s.loc, r) && v < VPNS ::
      Table0(s.pt, r, v) != 0 ==> Table0(s'.pt, r, v) == Table0(s.pt, r, v)
  }

  // One step of growth after another.
  ghost predicate Step(s: Snap, s': Snap, root: nat, lo: nat, hi: nat) {
    Outside(s, s', root, lo, hi) && Kept(s, s', root) && PathsKept(s, s')
  }

  lemma StepRefl(s: Snap, root: nat)
    ensures Step(s, s, root, 0, 0)
  {
  }

  // A step on one range and a step on another, on a range covering both.
  lemma StepJoin(s: Snap, m: Snap, s': Snap, root: nat, lo1: nat, hi1: nat, lo2: nat, hi2: nat, lo: nat, hi: nat)
    requires Step(s, m, root, lo1, hi1) && Step(m, s', root, lo2, hi2)
    requires (lo1 < hi1 ==> lo <= lo1 && hi1 <= hi) && (lo2 < hi2 ==> lo <= lo2 && hi2 <= hi)
    ensures Step(s, s', root, lo, hi)
  {
  }

  lemma StepSame(s: Snap, s': Snap, root: nat, lo: nat, hi: nat, v: nat)
    requires Step(s, s', root, lo, hi) && IsRoot(s.loc, root) && v < VPNS && !(lo <= v < hi)
    ensures Entry(s'.pt, root, v) == Entry(s.pt, root, v) && IsRoot(s'.loc, root)
  {
  }

  lemma StepTrans(s: Snap, m: Snap, s': Snap, root: nat, lo: nat, hi: nat)
    requires Step(s, m, root, lo, hi) && Step(m, s', root, lo, hi)
    ensures Step(s, s', root, lo, hi)
  {
  }

  ghost function Written(s: Snap, p: nat, i: nat, e: Pte): Snap
    requires p in s.pt && i < |s.pt[p]|
  {
    Snap(WithEntry(s.pt, p, i, e), s.loc, s.free, s.used)
  }

  lemma SetEntryStep(s: Snap, p: nat, i: nat, e: Pte, root: nat, v: nat)
    requires Writable(s.pt, s.loc, p, i, e) && s.loc[p].root == root && s.loc[p].pre * 512 + i == v
    ensures Step(s, Written(s, p, i, e), root, v, v + 1)
    ensures Entry(Written(s, p, i, e).pt, root, v) == e
  {
    assert v / 512 == s.loc[p].pre;
    Reached(s.pt, s.loc, p, v);
    SetEntryMeaning(s.pt, s.loc, p, i, e, root, v);
    forall r, v: nat | IsRoot(s.loc, r) && v < VPNS
      ensures Table0(WithEntry(s.pt, p, i, e), r, v) == Table0(s.pt, r, v)
      ensures Entry(WithEntry(s.pt, p, i, e), r, v) ==
              if r == root && v == s.loc[p].pre * 512 + i then e else Entry(s.pt, r, v)
    {
      SetEntryMeaning(s.pt, s.loc, p, i, e, r, v);
    }
    hide Shape, Entry, Table0;
  }

  // Page n, held by the kernel, becomes an empty table below entry i of p.
  ghost function WithTable(s: Snap, p: nat, i: nat, n: nat): Snap
    requires Hookable(s.pt, s.loc, p, i, n)
  {
    Snap(Hooked(s.pt, p, i, n), HookedLoc(s.loc, p, i, n), s.free, s.used - {n})
  }

  lemma AddTableStep(s: Snap, p: nat, i: nat, n: nat)
    requires Hookable(s.pt, s.loc, p, i, n)
    ensures Step(s, WithTable(s, p, i, n), s.loc[p].root, 0, 0)
  {
    hide Shape, Entry, Table0, Hooked;
    forall r, v: nat | IsRoot(s.loc, r) && v < VPNS
      ensures Entry(Hooked(s.pt, p, i, n), r, v) == Entry(s.pt, r, v)
      ensures Table0(s.pt, r, v) != 0 ==> Table0(Hooked(s.pt, p, i, n), r, v) == Table0(s.pt, r, v)
    {
      AddTableMeaning(s.pt, s.loc, p, i, n, r, v);
    }
  }

  lemma AddTableGood(s: Snap, pages: set<nat>, p: nat, i: nat, n: nat)
    requires Good(s, pages) && Hookable(s.pt, s.loc, p, i, n) && n in s.used
    ensures Good(WithTable(s, p, i, n), pages)
  {
    AddTableShape(s.pt, s.loc, p, i, n);
    hide Shape;
    assert Hooked(s.pt, p, i, n).Keys == s.pt.Keys + {n};
    hide Hooked, Hookable;
    AccountsHooked(s, WithTable(s, p, i, n), pages, n);
  }

  lemma SetEntryGood(s: Snap, pages: set<nat>, p: nat, i: nat, e: Pte)
    requires Good(s, pages) && Writable(s.pt, s.loc, p, i, e)
    ensures Good(Written(s, p, i, e), pages)
  {
    SetEntryShape(s.pt, s.loc, p, i, e);
    hide Shape;
    assert WithEntry(s.pt, p, i, e).Keys == s.pt.Keys;
    hide WithEntry, Writable;
    AccountsKeys(s, Written(s, p, i, e), pages);
  }

  ghost function Taken(s: Snap, c: nat): Snap {
    Snap(s.pt, s.loc, s.free - {c}, s.used[c := Held])
  }

  lemma TakenHookable(s: Snap, pages: set<nat>, root: nat, p: nat, level: nat, vpn: nat, c: nat)
    requires Good(s, pages) && OnPath(s.pt, s.loc, root, p, level, vpn) && 0 < level
    requires !Present(s.pt[p][Px(level, vpn)]) && c in s.free
    ensures Hookable(s.pt, s.loc, p, Px(level, vpn), c)
  {
  }

  // A free page c becomes the missing table below p on the way to vpn.
  lemma NewTableStep(s: Snap, pages: set<nat>, root: nat, p: nat, level: nat, vpn: nat, c: nat)
    requires Good(s, pages) && OnPath(s.pt, s.loc, root, p, level, vpn) && 0 < level && vpn < VPNS
    requires !Present(s.pt[p][Px(level, vpn)]) && c in s.free
    ensures Hookable(s.pt, s.loc, p, Px(level, vpn), c)
    ensures var s' := WithTable(Taken(s, c), p, Px(level, vpn), c);
            && s'.used == s.used && Step(s, s', root, 0, 0)
            && OnPath(s'.pt, s'.loc, root, c, level - 1, vpn)
  {
    hide Good, Hookable, Shape, Px, Entry, Table0, Hooked, HookedLoc, WithTable, Step, Pre;
    var i := Px(level, vpn);
    TakenHookable(s, pages, root, p, level, vpn, c);
    AddTableStep(Taken(s, c), p, i, c);
    HookedOnPath(s.pt, s.loc, root, p, level, vpn, c);
    NewTableShape(s, pages, p, i, c);
  }

  lemma NewTableShape(s: Snap, pages: set<nat>, p: nat, i: nat, c: nat)
    requires Good(s, pages) && Hookable(s.pt, s.loc, p, i, c) && c in s.free
    ensures var s' := WithTable(Taken(s, c), p, i, c);
            s'.used == s.used && s'.pt == Hooked(s.pt, p, i, c) && s'.loc == HookedLoc(s.loc, p, i, c)
    ensures var s' := WithTable(Taken(s, c), p, i, c);
            Step(Taken(s, c), s', s.loc[p].root, 0, 0) ==> Step(s, s', s.loc[p].root, 0, 0)
  {
  }

  /* How much memory an operation needs. */

  // No more than n free pages are used up, or fewer than n were there.
  ghost predicate Enough(ok: bool, n: int, before: set<nat>, after: set<nat>) {
    if ok then |before| <= |after| + n else |before| < n
  }

  // The tables that may be missing on the way to page v.
  ghost function Lacks(s: Snap, root: nat, v: nat): nat {
    if v < MAXVPN && Table0(s.pt, root, v) == 0 then 2 else 0
  }

  lemma SameLacks(s: Snap, s': Snap, root: nat, v: nat)
    requires s'.pt == s.pt
    ensures Lacks(s', root, v) == Lacks(s, root, v)
  {
  }

  lemma Fewer(a: set<nat>, b: set<nat>)
    requires a <= b
    ensures |a| <= |b|
  {
    assert a + (b - a) == b;
  }

  lemma PresentHasTable(s: Snap, pages: set<nat>, root: nat, v: nat)
    requires Good(s, pages) && Present(Entry(s.pt, root, v))
    ensures Table0(s.pt, root, v) != 0
  {
  }

  // Page v of root cannot be mapped.
  ghost predicate Blocked(s: Snap, root: nat, v: nat) {
    v >= MAXVPN || Present(Entry(s.pt, root, v))
  }

  datatype MapResult = Mapped | NoMemory | Panic

  datatype Slot = At(table: nat, index: nat) | NoTable | Panicked

  class Memory {
    var pt: Heap
    var free: set<nat>
    ghost var loc: map<nat, Loc>
    ghost var used: map<nat, Use>
    ghost const pages: set<nat>

    // All of memory is free.
    constructor (pages: set<nat>)
      requires 0 !in pages
      ensures Inv() && this.pages == pages && S() == Snap(map[], map[], pages, map[])
    {
      pt, free, loc, used := map[], pages, map[], map[];
      this.pages := pages;
    }

    ghost function S(): Snap
      reads this
    {
      Snap(pt, loc, free, used)
    }

    ghost predicate Inv()
      reads this
    {
      Good(S(), pages)
    }

    // The allocator, as a set of free pages.
    method Kalloc() returns (r: nat)
      requires Accounts(S(), pages)
      modifies this`free, this`used
      ensures Accounts(S(), pages)
      ensures r == 0 <==> old(free) == {}
      ensures r == 0 ==> S() == old(S())
      ensures r != 0 ==> r in old(free) && S() == old(S()).(free := old(free) - {r}, used := old(used)[r := Held])
      ensures r != 0 ==> |old(free)| == |free| + 1
    {
      if free == {} {
        return 0;
      }
      r :| r in free;
      assert free == free - {r} + {r};
      free := free - {r};
      used := used[r := Held];
    }

    // The caller owns p; a page freed twice would break this precondition.
    method Kfree(p: nat)
      requires Accounts(S(), pages) && p in pages && p !in free
      modifies this`pt, this`loc, this`free, this`used
      ensures Accounts(S(), pages)
      ensures S() == Snap(old(pt) - {p}, old(loc) - {p}, old(free) + {p}, old(used) - {p})
    {
      free := free + {p};
      pt := pt - {p};
      loc := loc - {p};
      used := used - {p};
    }

    // Writes the entry of page vpn in a last-level table.
    method SetPte(p: nat, i: nat, e: Pte, ghost root: nat, ghost vpn: nat)
      requires Inv() && Writable(pt, loc, p, i, e) && loc[p].root == root && loc[p].pre * 512 + i == vpn
      modifies this`pt
      ensures Inv() && S() == Written(old(S()), p, i, e)
      ensures Step(old(S()), S(), root, vpn, vpn + 1)
      ensures Entry(pt, root, vpn) == e
    {
      ghost var s := S();
      SetEntryStep(s, p, i, e, root, vpn);
      SetEntryGood(s, pages, p, i, e);
      hide *;
      pt := WithEntry(pt, p, i, e);
      assert S() == Written(s, p, i, e);
    }

    // Hooks a new zeroed table in below an entry.
    method HookTable(p: nat, i: nat, n: nat)
      requires Inv() && Hookable(pt, loc, p, i, n) && n in used
      modifies this`pt, this`loc, this`used
      ensures Inv() && free == old(free) && S() == WithTable(old(S()), p, i, n)
      ensures Step(old(S()), S(), old(loc)[p].root, 0, 0)
    {
      ghost var s := S();
      AddTableStep(s, p, i, n);
      AddTableGood(s, pages, p, i, n);
      hide Good, Hookable, Step, Hooked;
      pt := Hooked(pt, p, i, n);
      loc := HookedLoc(loc, p, i, n);
      used := used - {n};
    }

    // The table below p on the way to vpn; 0 if there is none and none is created.
    method NextTable(root: nat, p: nat, level: nat, vpn: nat, alloc: bool) returns (c: nat)
      requires Inv() && OnPath(pt, loc, root, p, level, vpn) && 0 < level && vpn < VPNS
      modifies this`pt, this`loc, this`free, this`used
      ensures Inv() && Step(old(S()), S(), root, 0, 0) && used == old(used)
      ensures c != 0 ==> OnPath(pt, loc, root, c, level - 1, vpn)
      ensures c == 0 || !alloc ==> S() == old(S())
      ensures c == 0 ==> OnPath(pt, loc, root, p, level, vpn) && !Present(pt[p][Px(level, vpn)])
      ensures c == 0 && alloc ==> free == {}
      ensures Present(old(pt)[p][Px(level, vpn)]) ==> S() == old(S())
      ensures |old(free)| <= |free| + 1
    {
      StepRefl(S(), root);
      var i := Px(level, vpn);
      var e := pt[p][i];
      if Present(e) {
        ChildOnPath(root, p, level, vpn);
        hide Good, Step, OnPath;
        return e.ppn;
      }
      if !alloc {
        hide Good, Step;
        return 0;
      }
      c := NewTable(root, p, level, vpn);
    }

    method NewTable(root: nat, p: nat, level: nat, vpn: nat) returns (c: nat)
      requires Inv() && OnPath(pt, loc, root, p, level, vpn) && 0 < level && vpn < VPNS
      requires !Present(pt[p][Px(level, vpn)])
      modifies this`pt, this`loc, this`free, this`used
      ensures Inv()
      ensures c == 0 ==> S() == old(S()) && free == {}
      ensures c != 0 ==> Step(old(S()), S(), root, 0, 0) && used == old(used)
      ensures c != 0 ==> OnPath(pt, loc, root, c, level - 1, vpn)
      ensures |old(free)| <= |free| + 1
    {
      ghost var s := S();
      var i := Px(level, vpn);
      c := Kalloc();
      if c != 0 {
        NewTableStep(s, pages, root, p, level, vpn, c);
        assert Good(S(), pages) && S() == Taken(s, c);
        hide Good, Step, Hookable, OnPath, Px, Taken;
        HookTable(p, i, c);
      }
    }

    lemma ChildOnPath(root: nat, p: nat, level: nat, vpn: nat)
      requires Inv() && OnPath(pt, loc, root, p, level, vpn) && 0 < level && vpn < VPNS
      requires Present(pt[p][Px(level, vpn)])
      ensures var c := pt[p][Px(level, vpn)].ppn; c != 0 && OnPath(pt, loc, root, c, level - 1, vpn)
    {
      Descend(pt, loc, root, p, level, vpn);
    }

    // The entry for va in the page table at root; with alloc, tables missing on
    // the way are created.
    method Walk(root: nat, va: nat, alloc: bool) returns (r: Slot)
      requires Inv() && IsRoot(loc, root)
      modifies this`pt, this`loc, this`free, this`used
      ensures Inv() && Step(old(S()), S(), root, 0, 0) && used == old(used)
      ensures r.Panicked? <==> va >= MAXVA
      ensures r.At? ==> r.index == Px(0, PageOf(va)) && OnPath(pt, loc, root, r.table, 0, PageOf(va))
      ensures r.At? ==> r.table in pt && r.index < |pt[r.table]| && pt[r.table][r.index] == Entry(pt, root, va / 4096)
      ensures forall q, v: nat | IsRoot(old(loc), q) && v < VPNS :: Entry(pt, q, v) == Entry(old(pt), q, v)
      ensures !alloc ==> S() == old(S())
      ensures r.NoTable? ==> Table0(old(pt), root, PageOf(va)) == 0
      ensures r.NoTable? && alloc ==> free == {} && |old(free)| < 2
      ensures |old(free)| <= |free| + Lacks(old(S()), root, PageOf(va))
    {
      hide Good, Step, OnPath, Px, IsRoot, Table0, PageOf, Present;
      ghost var s := S();
      StepRefl(s, root);
      if va >= MAXVA {
        return Panicked;
      }
      var vpn := PageOf(va);
      PageBound(va);
      var pagetable := root;
      var level := 2;
      AtRoot(root, vpn);
      while level > 0
        invariant 0 <= level <= 2
        invariant Inv() && OnPath(pt, loc, root, pagetable, level, vpn)
        invariant Step(s, S(), root, 0, 0) && used == s.used
        invariant !alloc || Table0(s.pt, root, vpn) != 0 ==> S() == s
        invariant |s.free| <= |free| + 2 - level
      {
        ghost var m := S();
        WalkGoesOn(s, root, pagetable, level, vpn);
        var c := NextTable(root, pagetable, level, vpn, alloc);
        StepTrans(s, m, S(), root, 0, 0);
        if c == 0 {
          WalkStops(s, root, pagetable, level, vpn);
          StepMeans(s, S(), root);
          return NoTable;
        }
        pagetable := c;
        level := level - 1;
      }
      WalkEnds(root, pagetable, va);
      StepMeans(s, S(), root);
      r := At(pagetable, Px(0, vpn));
    }

    lemma WalkEnds(root: nat, p: nat, va: nat)
      requires Inv() && OnPath(pt, loc, root, p, 0, PageOf(va)) && va < MAXVA
      ensures p in pt && Px(0, PageOf(va)) < |pt[p]| && pt[p][Px(0, PageOf(va))] == Entry(pt, root, va / 4096)
    {
      hide Shape, Px;
      PathEnds(pt, loc, root, p, PageOf(va));
    }

    lemma StepMeans(s: Snap, s': Snap, root: nat)
      requires Step(s, s', root, 0, 0)
      ensures forall q, v: nat | IsRoot(s.loc, q) && v < VPNS :: Entry(s'.pt, q, v) == Entry(s.pt, q, v)
    {
      hide Entry, Table0;
    }

    lemma PageBound(va: nat)
      requires va < MAXVA
      ensures PageOf(va) < MAXVPN
    {
    }

    lemma AtRoot(root: nat, vpn: nat)
      requires Inv() && IsRoot(loc, root)
      ensures OnPath(pt, loc, root, root, 2, vpn)
    {
    }

    lemma WalkStops(s: Snap, root: nat, p: nat, level: nat, vpn: nat)
      requires Inv() && IsRoot(s.loc, root) && Step(s, S(), root, 0, 0)
      requires OnPath(pt, loc, root, p, level, vpn) && 0 < level && vpn < VPNS && !Present(pt[p][Px(level, vpn)])
      ensures Table0(s.pt, root, vpn) == 0
    {
      assert IsRoot(loc, root);
      PathStops(pt, loc, root, p, level, vpn);
      hide Good, OnPath, Px, Entry, Table0;
    }

    lemma WalkGoesOn(s: Snap, root: nat, p: nat, level: nat, vpn: nat)
      requires Inv() && IsRoot(s.loc, root) && Step(s, S(), root, 0, 0)
      requires OnPath(pt, loc, root, p, level, vpn) && 0 < level && vpn < VPNS
      ensures p in pt && Px(level, vpn) < |pt[p]|
      ensures Table0(pt, root, vpn) != 0 ==> Present(pt[p][Px(level, vpn)])
    {
      if !Present(pt[p][Px(level, vpn)]) {
        PathStops(pt, loc, root, p, level, vpn);
      }
    }

    // The slot walk returns is the entry of the virtual page.
    lemma SlotEntry(root: nat, p: nat, vpn: nat, e: Pte)
      requires Inv() && OnPath(pt, loc, root, p, 0, vpn) && vpn < VPNS && (Present(e) ==> Leaf(e))
      ensures p in pt && Px(0, vpn) < |pt[p]| && pt[p][Px(0, vpn)] == Entry(pt, root, vpn)
      ensures p in loc && loc[p].root == root && loc[p].pre * 512 + Px(0, vpn) == vpn
      ensures Writable(pt, loc, p, Px(0, vpn), e)
    {
      PathEnds(pt, loc, root, p, vpn);
      IndexBits(vpn);
      hide Shape, Px, Leaf;
    }

    // The entry of page vpn becomes e.
    method WriteAt(root: nat, p: nat, vpn: nat, e: Pte)
      requires Inv() && OnPath(pt, loc, root, p, 0, vpn) && vpn < VPNS && (Present(e) ==> Leaf(e))
      modifies this`pt
      ensures Inv() && Step(old(S()), S(), root, vpn, vpn + 1)
      ensures Entry(pt, root, vpn) == e && pt.Keys == old(pt).Keys
    {
      SlotEntry(root, p, vpn, e);
      hide *;
      SetPte(p, Px(0, vpn), e, root, vpn);
    }

    lemma SlotHere(root: nat, r: Slot, v: nat)
      requires r.At? && r.index == Px(0, PageOf(Addr(v))) && OnPath(pt, loc, root, r.table, 0, PageOf(Addr(v)))
      ensures r.index == Px(0, v) && OnPath(pt, loc, root, r.table, 0, v)
    {
    }

    lemma AddrBound(s: Snap, root: nat, v: nat)
      ensures Addr(v) >= MAXVA <==> v >= MAXVPN
      ensures v >= MAXVPN ==> Blocked(s, root, v)
    {
    }

    lemma OldEntry(s: Snap, s': Snap, root: nat, v: nat)
      requires Step(s, s', root, 0, 0) && IsRoot(s.loc, root) && v < MAXVPN
      ensures Present(Entry(s'.pt, root, v)) <==> Present(Entry(s.pt, root, v))
      ensures Present(Entry(s'.pt, root, v)) ==> Blocked(s, root, v)
    {
    }

    // The last lines of the loop of mappages, with the slot at hand.
    method MapSlot(root: nat, p: nat, v: nat, e: Pte) returns (ok: bool)
      requires Inv() && OnPath(pt, loc, root, p, 0, v) && v < MAXVPN && Leaf(e)
      modifies this`pt
      ensures Inv() && ok == !Present(Entry(old(pt), root, v))
      ensures ok ==> Entry(pt, root, v) == e && Step(old(S()), S(), root, v, v + 1)
      ensures !ok ==> pt == old(pt)
    {
      hide Good, OnPath, Step, Px, Entry, Leaf;
      SlotEntry(root, p, v, e);
      if Present(pt[p][Px(0, v)]) {
        return false;
      }
      WriteAt(root, p, v, e);
      ok := true;
    }

    // What mappages writes for page v: the page of pa, the rights and V.
    method MapOne(root: nat, v: nat, e: Pte) returns (r: MapResult)
      requires Inv() && IsRoot(loc, root) && Leaf(e)
      modifies this`pt, this`loc, this`free, this`used
      ensures Inv() && used == old(used)
      ensures r.Mapped? ==> v < MAXVPN && !Present(Entry(old(pt), root, v)) && Entry(pt, root, v) == e
                            && Step(old(S()), S(), root, v, v + 1)
      ensures !r.Mapped? ==> Step(old(S()), S(), root, 0, 0)
      ensures r.NoMemory? ==> free == {} && v < MAXVPN
      ensures r.Panic? ==> Blocked(old(S()), root, v)
      ensures Enough(!r.NoMemory?, Lacks(old(S()), root, v), old(free), free)
    {
      hide Blocked, Good, OnPath, Step, Px, Entry, Table0, IsRoot, Addr, PageOf, Leaf, Present;
      ghost var s := S();
      AddrBound(s, root, v);
      var slot := Walk(root, Addr(v), true);
      if slot.Panicked? {
        return Panic;
      } else if slot.NoTable? {
        return NoMemory;
      }
      ghost var m := S();
      SlotHere(root, slot, v);
      OldEntry(s, m, root, v);
      var ok := MapSlot(root, slot.table, v, e);
      if !ok {
        return Panic;
      }
      StepJoin(s, m, S(), root, 0, 0, v, v + 1, v, v + 1);
      r := Mapped;
    }
  }
}
