/** proc_freewalk: tearing down a page table without freeing what it maps. */
module Teardown {
  import opened Sv39
  import opened Vm

  function Up(pre: nat, n: nat): nat
    requires n <= 2
  {
    if n == 0 then pre else if n == 1 then pre / 512 else pre / 262144
  }

  ghost predicate Levels(loc: map<nat, Loc>) {
    forall q | q in loc :: loc[q].level <= 2
  }

  // The tables in the tree at root.
  ghost function Tree(loc: map<nat, Loc>, root: nat): set<nat> {
    set q | q in loc && loc[q].root == root
  }

  // p and the tables below it.
  ghost function Below(loc: map<nat, Loc>, p: nat): set<nat>
    requires p in loc && Levels(loc)
  {
    set q | q in loc && loc[q].root == loc[p].root && loc[q].level <= loc[p].level
            && Up(loc[q].pre, loc[p].level - loc[q].level) == loc[p].pre
  }

  // The tables below the first i entries of p.
  ghost function UpTo(loc: map<nat, Loc>, p: nat, i: nat): set<nat>
    requires p in loc && Levels(loc)
  {
    set q | q in loc && loc[q].root == loc[p].root && loc[q].level < loc[p].level
            && loc[p].pre * 512 <= Up(loc[q].pre, loc[p].level - 1 - loc[q].level) < loc[p].pre * 512 + i
  }

  lemma ShapeLevels(pt: Heap, loc: map<nat, Loc>)
    requires Shape(pt, loc)
    ensures Levels(loc)
  {
  }

  // The table of that level above q.
  lemma Ancestor(pt: Heap, loc: map<nat, Loc>, q: nat, level: nat) returns (a: nat)
    requires Shape(pt, loc) && q in pt && loc[q].level <= level <= 2
    ensures a in pt && loc[a].root == loc[q].root && loc[a].level == level
    ensures Up(loc[q].pre, level - loc[q].level) == loc[a].pre
    decreases level - loc[q].level
  {
    if loc[q].level == level {
      return q;
    }
    assert PageOk(pt, loc, q);
    var r := loc[q].parent;
    a := Ancestor(pt, loc, r, level);
    assert loc[q].pre / 512 / 512 == loc[q].pre / 262144;
  }

  // The root of a tree is above all its tables.
  lemma TreeIsBelow(pt: Heap, loc: map<nat, Loc>, root: nat)
    requires Shape(pt, loc) && IsRoot(loc, root)
    ensures Levels(loc) && Below(loc, root) == Tree(loc, root)
  {
    ShapeLevels(pt, loc);
    forall q | q in Tree(loc, root)
      ensures q in Below(loc, root)
    {
      var a := Ancestor(pt, loc, q, 2);
      assert PageOk(pt, loc, a);
    }
  }

  // The tables below a child c of p, and those below the entries before it.
  lemma UpToChild(loc: map<nat, Loc>, p: nat, i: nat, c: nat)
    requires p in loc && c in loc && Levels(loc) && loc[p].level > 0
    requires loc[c] == Loc(loc[p].root, loc[p].level - 1, loc[p].pre * 512 + i, p)
    ensures UpTo(loc, p, i + 1) == UpTo(loc, p, i) + Below(loc, c)
    ensures UpTo(loc, p, i) !! Below(loc, c) && p !in Below(loc, c)
  {
  }

  // What is below entry i: the tables below the page it points to, if any.
  lemma UpToNext(pt: Heap, loc: map<nat, Loc>, p: nat, i: nat)
    requires Shape(pt, loc) && p in pt && i < ENTRIES
    ensures Levels(loc) && |pt[p]| == ENTRIES
    ensures Pointer(pt[p][i]) ==>
              var c := pt[p][i].ppn;
              && c in pt && loc[c].level < loc[p].level
              && UpTo(loc, p, i + 1) == UpTo(loc, p, i) + Below(loc, c)
              && UpTo(loc, p, i) !! Below(loc, c) && p !in Below(loc, c)
    ensures !Pointer(pt[p][i]) ==> UpTo(loc, p, i + 1) == UpTo(loc, p, i)
  {
    ShapeLevels(pt, loc);
    assert PageOk(pt, loc, p) && EntryOk(pt, loc, p, i);
    if Pointer(pt[p][i]) {
      UpToChild(loc, p, i, pt[p][i].ppn);
      hide UpTo, Below, Up;
    } else {
      NothingBelow(pt, loc, p, i);
    }
  }

  lemma NothingBelow(pt: Heap, loc: map<nat, Loc>, p: nat, i: nat)
    requires Shape(pt, loc) && p in pt && p in loc && i < ENTRIES
    requires Levels(loc) && |pt[p]| == ENTRIES && !Pointer(pt[p][i])
    ensures UpTo(loc, p, i + 1) == UpTo(loc, p, i)
  {
    hide Shape, Up, Pointer;
    forall q | q in UpTo(loc, p, i + 1)
      ensures q in UpTo(loc, p, i)
    {
      NotBelow(pt, loc, p, i, q);
    }
  }

  lemma NotBelow(pt: Heap, loc: map<nat, Loc>, p: nat, i: nat, q: nat)
    requires Shape(pt, loc) && p in pt && i < ENTRIES && Levels(loc) && |pt[p]| == ENTRIES && !Pointer(pt[p][i])
    requires q in loc && loc[q].root == loc[p].root && loc[q].level < loc[p].level
    ensures Up(loc[q].pre, loc[p].level - 1 - loc[q].level) != loc[p].pre * 512 + i
  {
    assert q in pt.Keys;
    var a := Ancestor(pt, loc, q, loc[p].level - 1);
    assert PageOk(pt, loc, a) && PageOk(pt, loc, p);
    assert EntryOk(pt, loc, p, i);
    if loc[a].pre == loc[p].pre * 512 + i {
      SamePlace(pt, loc, loc[a].parent, p);
    }
  }

  // All of p's tables but itself are below its entries.
  lemma UpToAll(pt: Heap, loc: map<nat, Loc>, p: nat)
    requires Shape(pt, loc) && p in pt
    ensures Levels(loc) && Below(loc, p) == UpTo(loc, p, ENTRIES) + {p} && p !in UpTo(loc, p, ENTRIES)
    ensures UpTo(loc, p, 0) == {}
  {
    ShapeLevels(pt, loc);
    forall q | q in Below(loc, p)
      ensures q in UpTo(loc, p, ENTRIES) || q == p
    {
      if loc[q].level == loc[p].level {
        SamePlace(pt, loc, q, p);
      }
    }
  }

  // The tables X are gone and their pages free.
  ghost function Minus(s: Snap, x: set<nat>): Snap {
    Snap(s.pt - x, s.loc - x, s.free + x, s.used)
  }

  // The tables below p are as they were in the good state g.
  ghost predicate Intact(g: Snap, s: Snap, p: nat)
    requires p in g.loc && Levels(g.loc)
  {
    forall q | q in Below(g.loc, p) :: q in s.pt && q in g.pt && s.pt[q] == g.pt[q]
  }

  // Halfway through the table p: the tables x are gone, p's entries from i on
  // are still those of g, and everything else is as in s0.
  ghost predicate Tearing(g: Snap, s0: Snap, s: Snap, p: nat, x: set<nat>, i: nat) {
    && p in s0.pt && p in s.pt && p in g.pt && |s.pt[p]| == ENTRIES && |g.pt[p]| == ENTRIES && p !in x
    && s.pt - {p} == s0.pt - x - {p}
    && s.loc == s0.loc - x && s.free == s0.free + x && s.used == s0.used
    && forall j: nat | i <= j < ENTRIES :: s.pt[p][j] == g.pt[p][j]
  }

  lemma TearStart(g: Snap, pages: set<nat>, s: Snap, p: nat)
    requires Good(g, pages) && p in g.pt && Levels(g.loc) && Intact(g, s, p)
    ensures Tearing(g, s, s, p, UpTo(g.loc, p, 0), 0)
  {
    UpToAll(g.pt, g.loc, p);
    assert p in Below(g.loc, p);
    assert PageOk(g.pt, g.loc, p);
    hide Shape, PageOk, Below, UpTo;
    assert s.pt - {} - {p} == s.pt - {p} && s.loc - {} == s.loc;
  }

  lemma UpToGrows(loc: map<nat, Loc>, p: nat, i: nat, j: nat)
    requires p in loc && Levels(loc) && i <= j
    ensures UpTo(loc, p, i) <= UpTo(loc, p, j)
  {
  }

  // The tables below an entry of p not reached yet are intact.
  lemma ChildIntact(g: Snap, pages: set<nat>, s0: Snap, s: Snap, p: nat, i: nat)
    requires Good(g, pages) && p in g.pt && Levels(g.loc) && Intact(g, s0, p) && i < ENTRIES
    requires Tearing(g, s0, s, p, UpTo(g.loc, p, i), i) && Pointer(s.pt[p][i])
    ensures var c := s.pt[p][i].ppn;
            && c in g.pt && c in g.loc && g.loc[c].level < g.loc[p].level && Intact(g, s, c)
            && UpTo(g.loc, p, i + 1) == UpTo(g.loc, p, i) + Below(g.loc, c)
            && p !in Below(g.loc, c)
  {
    UpToNext(g.pt, g.loc, p, i);
    UpToAll(g.pt, g.loc, p);
    UpToGrows(g.loc, p, i + 1, ENTRIES);
    var c := s.pt[p][i].ppn;
    hide Shape, Below, UpTo;
    forall q | q in Below(g.loc, c)
      ensures q in s.pt && q in g.pt && s.pt[q] == g.pt[q]
    {
      assert q in UpTo(g.loc, p, i + 1) && q in Below(g.loc, p) && q !in UpTo(g.loc, p, i) && q != p;
      assert q in s0.pt - UpTo(g.loc, p, i) - {p};
    }
  }

  // The child is gone and the entry that pointed to it cleared.
  lemma TearNext(g: Snap, s0: Snap, s: Snap, p: nat, x: set<nat>, i: nat, y: set<nat>)
    requires Tearing(g, s0, s, p, x, i) && i < ENTRIES && p !in y
    ensures var t := Minus(s, y);
            p in t.pt && Tearing(g, s0, t.(pt := WithEntry(t.pt, p, i, ZERO_PTE)), p, x + y, i + 1)
  {
    var t := Minus(s, y);
    var pt' := WithEntry(t.pt, p, i, ZERO_PTE);
    assert pt' - {p} == t.pt - {p} == s.pt - {p} - y == s0.pt - x - {p} - y == s0.pt - (x + y) - {p};
    assert s.loc - y == s0.loc - (x + y);
  }

  lemma TearEntry(g: Snap, s0: Snap, s: Snap, p: nat, x: set<nat>, i: nat)
    requires Tearing(g, s0, s, p, x, i) && i < ENTRIES
    ensures Tearing(g, s0, s, p, x, i + 1)
    ensures Tearing(g, s0, s.(pt := WithEntry(s.pt, p, i, ZERO_PTE)), p, x, i + 1)
  {
  }

  lemma TearEnd(g: Snap, s0: Snap, s: Snap, p: nat, x: set<nat>, i: nat)
    requires Tearing(g, s0, s, p, x, i) && p !in s.used
    ensures Snap(s.pt - {p}, s.loc - {p}, s.free + {p}, s.used - {p}) == Minus(s0, x + {p})
  {
  }

  // Clears entry i of a table.
  method Clear(m: Memory, p: nat, i: nat)
    requires Accounts(m.S(), m.pages) && p in m.pt && i < |m.pt[p]|
    modifies m`pt
    ensures Accounts(m.S(), m.pages) && m.S() == old(m.S()).(pt := WithEntry(old(m.pt), p, i, ZERO_PTE))
  {
    AccountsKeys(m.S(), m.S().(pt := WithEntry(m.pt, p, i, ZERO_PTE)), m.pages);
    m.pt := WithEntry(m.pt, p, i, ZERO_PTE);
  }

  // proc_freewalk. Frees p and the tables below it, each once; kfree's own
  // precondition is that the page is not free yet.
  method ProcFreewalk(m: Memory, p: nat, ghost g: Snap)
    requires Accounts(m.S(), m.pages) && Good(g, m.pages) && p in g.pt && p in g.loc && Levels(g.loc)
    requires Intact(g, m.S(), p)
    modifies m
    ensures Accounts(m.S(), m.pages) && m.S() == Minus(old(m.S()), Below(g.loc, p))
    decreases g.loc[p].level
  {
    hide Accounts, Good, Intact, Tearing, Below, UpTo, Minus, Pointer, Present, WithEntry, Levels;
    ghost var s := m.S();
    TearStart(g, m.pages, s, p);
    TearingHas(g, s, s, p, UpTo(g.loc, p, 0), 0);
    var i := 0;
    while i < 512
      invariant 0 <= i <= 512 && Accounts(m.S(), m.pages) && p in m.pt && |m.pt[p]| == 512
      invariant Tearing(g, s, m.S(), p, UpTo(g.loc, p, i), i)
    {
      ghost var k := m.S();
      var pte := m.pt[p][i];
      if Pointer(pte) {
        // this entry points to a lower-level page table
        ChildIntact(g, m.pages, s, k, p, i);
        ghost var x, y := UpTo(g.loc, p, i), Below(g.loc, pte.ppn);
        ProcFreewalk(m, pte.ppn, g);
        TearNext(g, s, k, p, x, i, y);
        MinusEntry(g, s, k, p, x, i, y);
        Clear(m, p, i);
      } else {
        LeafEntry(g, m.pages, s, k, p, UpTo(g.loc, p, i), i);
        TearEntry(g, s, k, p, UpTo(g.loc, p, i), i);
        if Present(pte) {
          // a leaf: do not follow it
          Clear(m, p, i);
        }
      }
      i := i + 1;
      TearingHas(g, s, m.S(), p, UpTo(g.loc, p, i), i);
    }
    Finish(g, m.pages, s, m.S(), p);
    m.Kfree(p);
  }

  lemma TearingHas(g: Snap, s0: Snap, s: Snap, p: nat, x: set<nat>, i: nat)
    requires Tearing(g, s0, s, p, x, i)
    ensures p in s.pt && |s.pt[p]| == 512
  {
  }

  lemma MinusEntry(g: Snap, s0: Snap, s: Snap, p: nat, x: set<nat>, i: nat, y: set<nat>)
    requires Tearing(g, s0, s, p, x, i) && i < ENTRIES && p !in y
    ensures var t := Minus(s, y); p in t.pt && i < |t.pt[p]|
  {
  }

  lemma LeafEntry(g: Snap, pages: set<nat>, s0: Snap, s: Snap, p: nat, x: set<nat>, i: nat)
    requires Good(g, pages) && p in g.pt && Levels(g.loc) && i < ENTRIES
    requires Tearing(g, s0, s, p, x, i) && !Pointer(s.pt[p][i])
    ensures UpTo(g.loc, p, i + 1) == UpTo(g.loc, p, i)
  {
    UpToNext(g.pt, g.loc, p, i);
    hide Shape, UpTo;
  }

  lemma Finish(g: Snap, pages: set<nat>, s0: Snap, s: Snap, p: nat)
    requires Good(g, pages) && Accounts(s, pages) && p in g.pt && Levels(g.loc)
    requires Tearing(g, s0, s, p, UpTo(g.loc, p, ENTRIES), ENTRIES)
    ensures p in pages && p !in s.free
    ensures Snap(s.pt - {p}, s.loc - {p}, s.free + {p}, s.used - {p}) == Minus(s0, Below(g.loc, p))
  {
    UpToAll(g.pt, g.loc, p);
    hide Shape, UpTo, Below;
    assert p in s.pt.Keys && p !in s.used.Keys;
    TearEnd(g, s0, s, p, UpTo(g.loc, p, ENTRIES), ENTRIES);
  }

  /* A whole page table. */

  // Other page tables are untouched: their entries, and which of them there are.
  ghost predicate OthersKept(s: Snap, s': Snap, root: nat) {
    && (forall r | r != root :: IsRoot(s'.loc, r) <==> IsRoot(s.loc, r))
    && (forall r, v: nat | IsRoot(s.loc, r) && r != root && v < VPNS :: Entry(s'.pt, r, v) == Entry(s.pt, r, v))
  }

  lemma TreeGoneEntry(pt: Heap, loc: map<nat, Loc>, x: set<nat>, q: nat, j: nat)
    requires q in pt && q in loc && q !in x && j < |pt[q]| && EntryOk(pt, loc, q, j)
    requires forall p | p in loc && loc[p].root == loc[q].root :: p !in x
    ensures EntryOk(pt - x, loc - x, q, j)
  {
  }

  lemma TreeGonePage(pt: Heap, loc: map<nat, Loc>, x: set<nat>, q: nat)
    requires q in pt && q in loc && q !in x && PageOk(pt, loc, q)
    requires forall p | p in loc && loc[p].root == loc[q].root :: p !in x
    ensures PageOk(pt - x, loc - x, q)
  {
    forall j | 0 <= j < ENTRIES
      ensures EntryOk(pt - x, loc - x, q, j)
    {
      TreeGoneEntry(pt, loc, x, q, j);
    }
    hide EntryOk, Present;
  }

  lemma TreeGoneShape(s: Snap, root: nat)
    requires Shape(s.pt, s.loc) && IsRoot(s.loc, root)
    ensures Shape(Minus(s, Tree(s.loc, root)).pt, Minus(s, Tree(s.loc, root)).loc)
  {
    hide PageOk;
    var t := Minus(s, Tree(s.loc, root));
    forall q | q in t.pt
      ensures q in t.loc && PageOk(t.pt, t.loc, q)
    {
      assert q in s.pt.Keys;
      TreeGonePage(s.pt, s.loc, Tree(s.loc, root), q);
    }
    assert t.pt.Keys == t.loc.Keys;
  }

  lemma TreeGoneMeaning(s: Snap, root: nat, r: nat, v: nat)
    requires Shape(s.pt, s.loc) && IsRoot(s.loc, root) && IsRoot(s.loc, r) && r != root && v < VPNS
    ensures Entry(s.pt - Tree(s.loc, root), r, v) == Entry(s.pt, r, v)
  {
    TablesPlaced(s.pt, s.loc, r, v);
    hide Shape, Px;
  }

  lemma TreeGone(s: Snap, pages: set<nat>, root: nat)
    requires Good(s, pages) && IsRoot(s.loc, root)
    ensures var t := Minus(s, Tree(s.loc, root));
            Shape(t.pt, t.loc) && OthersKept(s, t, root)
  {
    TreeGoneShape(s, root);
    var t := Minus(s, Tree(s.loc, root));
    forall r, v: nat | IsRoot(s.loc, r) && r != root && v < VPNS
      ensures Entry(t.pt, r, v) == Entry(s.pt, r, v)
    {
      TreeGoneMeaning(s, root, r, v);
    }
    hide Shape, Entry;
  }

  // proc_freewalk of a whole page table: exactly its own tables become free, and
  // no page in use; every other page table keeps its translations.
  method FreeTree(m: Memory, root: nat)
    requires m.Inv() && IsRoot(m.loc, root)
    modifies m
    ensures m.Inv() && m.S() == Minus(old(m.S()), Tree(old(m.loc), root))
    ensures OthersKept(old(m.S()), m.S(), root)
    ensures forall q :: q in m.loc <==> q in old(m.loc) && old(m.loc)[q].root != root
    ensures forall q :: q in m.free <==> q in old(m.free) || (q in old(m.loc) && old(m.loc)[q].root == root)
    ensures m.used == old(m.used)
    ensures forall r, v: nat | IsRoot(old(m.loc), r) && r != root && v < VPNS ::
              Entry(m.pt, r, v) == Entry(old(m.pt), r, v)
  {
    hide Accounts, Shape, Minus, Tree, Below, Levels, Intact, OthersKept, IsRoot, Entry;
    ghost var s := m.S();
    TreeGone(s, m.pages, root);
    TreeIsBelow(s.pt, s.loc, root);
    TreeIntact(s, m.pages, root);
    ProcFreewalk(m, root, s);
    TreeMeans(s, m.S(), root);
  }

  lemma TreeMeans(s: Snap, s': Snap, root: nat)
    requires s' == Minus(s, Tree(s.loc, root)) && OthersKept(s, s', root)
    ensures forall q :: q in s'.loc <==> q in s.loc && s.loc[q].root != root
    ensures forall q :: q in s'.free <==> q in s.free || (q in s.loc && s.loc[q].root == root)
    ensures s'.used == s.used
    ensures forall r, v: nat | IsRoot(s.loc, r) && r != root && v < VPNS :: Entry(s'.pt, r, v) == Entry(s.pt, r, v)
  {
    hide Entry;
  }

  lemma TreeIntact(s: Snap, pages: set<nat>, root: nat)
    requires Good(s, pages) && IsRoot(s.loc, root) && Levels(s.loc)
    ensures root in s.pt && root in s.loc && Intact(s, s, root)
  {
  }
}
