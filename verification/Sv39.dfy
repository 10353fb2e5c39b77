/** Sv39 page tables in physical memory: three levels of 512 entries. Physical
    pages are named by their page number, virtual pages by `vpn`. */
module Sv39 {

  datatype Flag = V | R | W | X | U | G | A | D
  datatype Pte = Pte(flags: set<Flag>, ppn: nat)
  const ZERO_PTE := Pte({}, 0)

  predicate Present(e: Pte) { V in e.flags }

  predicate Pointer(e: Pte) { V in e.flags && R !in e.flags && W !in e.flags && X !in e.flags }

  predicate Leaf(e: Pte) { V in e.flags && (R in e.flags || W in e.flags || X in e.flags) }

  const PGSIZE: nat := 4096
  const MAXVA: nat := 0x40_0000_0000
  const ENTRIES: nat := 512
  const MAXVPN: nat := 0x400_0000     // MAXVA / PGSIZE

  const VPNS: nat := 134217728        // what three 9-bit indices tell apart

  function PageOf(va: nat): nat {
    va / 4096
  }

  function Addr(page: nat): (va: nat)
    ensures PageOf(va) == page
  {
    page * 4096
  }

  // Page-table pages and their entries.
  type Heap = map<nat, seq<Pte>>

  // A zeroed table.
  function NoEntries(): seq<Pte> {
    seq(ENTRIES, _ => ZERO_PTE)
  }

  function Px(level: nat, vpn: nat): (i: nat)
    requires level <= 2
    ensures i < ENTRIES
  {
    if level == 0 then vpn % 512 else if level == 1 then vpn / 512 % 512 else vpn / 262144 % 512
  }

  function Get(pt: Heap, p: nat, i: nat): Pte {
    if p in pt && i < |pt[p]| then pt[p][i] else ZERO_PTE
  }

  // The level-1 and the level-0 table on the way to vpn; 0 if there is none.
  function Table1(pt: Heap, root: nat, vpn: nat): nat {
    var e := Get(pt, root, Px(2, vpn));
    if Present(e) then e.ppn else 0
  }

  function Table0(pt: Heap, root: nat, vpn: nat): nat {
    var e := Get(pt, Table1(pt, root, vpn), Px(1, vpn));
    if Present(e) then e.ppn else 0
  }

  // What the page table at root says about vpn.
  function Entry(pt: Heap, root: nat, vpn: nat): Pte {
    Get(pt, Table0(pt, root, vpn), Px(0, vpn))
  }

  // The three indices are the digits of a page number.
  lemma Digits(a: nat, b: nat, i: nat)
    requires a < 512 && b < 512 && i < 512
    ensures var v := a * 262144 + b * 512 + i; v < VPNS && Px(2, v) == a && Px(1, v) == b && Px(0, v) == i
  {
  }

  // A translation goes through an entry of the root, one of the table that it points
  // to, and one of the table that this points to, each valid but perhaps the last.
  lemma EntryMeans(pt: Heap, root: nat, a: nat, b: nat, i: nat)
    requires a < 512 && b < 512 && i < 512 && 0 !in pt
    requires forall p | p in pt :: |pt[p]| == 512
    ensures var e := Entry(pt, root, a * 262144 + b * 512 + i);
            if root !in pt || V !in pt[root][a].flags then e == Pte({}, 0)
            else
              var t1 := pt[root][a].ppn;
              if t1 !in pt || V !in pt[t1][b].flags then e == Pte({}, 0)
              else
                var t0 := pt[t1][b].ppn;
                e == if t0 in pt then pt[t0][i] else Pte({}, 0)
  {
    Digits(a, b, i);
    hide Px;
  }

  /* The shape of all tables in memory. */

  // A table's place: the tree it is in, its level there, the page that points
  // to it (itself for a root) and the index bits that lead to it.
  datatype Loc = Loc(root: nat, level: nat, pre: nat, parent: nat)

  ghost predicate IsRoot(loc: map<nat, Loc>, p: nat) {
    p in loc && loc[p] == Loc(p, 2, 0, p)
  }

  // A valid entry of an interior table points to a table one level down; one of
  // a last-level table is a leaf.
  ghost predicate EntryOk(pt: Heap, loc: map<nat, Loc>, p: nat, i: nat)
    requires p in pt && p in loc && i < |pt[p]|
  {
    var e := pt[p][i];
    Present(e) ==>
      if loc[p].level == 0 then Leaf(e)
      else e.flags == {V} && e.ppn in pt && e.ppn in loc
           && loc[e.ppn] == Loc(loc[p].root, loc[p].level - 1, loc[p].pre * 512 + i, p)
  }

  // A table that is no root is where its parent points.
  ghost predicate ParentOk(pt: Heap, loc: map<nat, Loc>, p: nat)
    requires p in loc
  {
    var l := loc[p];
    l.level < 2 ==>
      && l.parent in pt && l.parent in loc && |pt[l.parent]| == ENTRIES
      && loc[l.parent].root == l.root && loc[l.parent].level == l.level + 1 && loc[l.parent].pre == l.pre / 512
      && Present(pt[l.parent][l.pre % 512]) && pt[l.parent][l.pre % 512].ppn == p
  }

  ghost predicate PageOk(pt: Heap, loc: map<nat, Loc>, p: nat)
    requires p in pt && p in loc
  {
    && |pt[p]| == ENTRIES
    && loc[p].level <= 2
    && (loc[p].level == 2 ==> IsRoot(loc, p))
    && ParentOk(pt, loc, p)
    && forall i | 0 <= i < ENTRIES :: EntryOk(pt, loc, p, i)
  }

  ghost predicate Shape(pt: Heap, loc: map<nat, Loc>) {
    && pt.Keys == loc.Keys
    && 0 !in pt
    && forall p | p in pt :: PageOk(pt, loc, p)
  }

  // Places are unique.
  lemma SamePlace(pt: Heap, loc: map<nat, Loc>, p: nat, q: nat)
    requires Shape(pt, loc) && p in pt && q in pt
    requires loc[p].root == loc[q].root && loc[p].level == loc[q].level && loc[p].pre == loc[q].pre
    ensures p == q
    decreases 2 - loc[p].level
  {
  }

  lemma TablesPlaced(pt: Heap, loc: map<nat, Loc>, root: nat, vpn: nat)
    requires Shape(pt, loc) && IsRoot(loc, root) && vpn < VPNS
    ensures var t := Table1(pt, root, vpn);
            t != 0 ==> t in pt && loc[t] == Loc(root, 1, vpn / 262144, root)
    ensures var t := Table0(pt, root, vpn);
            t != 0 ==> t in pt && loc[t] == Loc(root, 0, vpn / 512, Table1(pt, root, vpn))
                       && Table1(pt, root, vpn) != 0
  {
    assert PageOk(pt, loc, root);
    assert EntryOk(pt, loc, root, Px(2, vpn));
    IndexBits(vpn);
    hide Px;
    var t := Table1(pt, root, vpn);
    if t != 0 {
      assert PageOk(pt, loc, t);
      assert EntryOk(pt, loc, t, Px(1, vpn));
    }
  }

  lemma IndexBits(vpn: nat)
    requires vpn < VPNS
    ensures Px(2, vpn) == vpn / 262144
    ensures vpn / 262144 * 512 + Px(1, vpn) == vpn / 512
    ensures vpn / 512 * 512 + Px(0, vpn) == vpn
    ensures vpn / 512 / 512 == vpn / 262144 && vpn / 262144 / 512 == 0
    ensures vpn / 512 % 512 == Px(1, vpn) && vpn / 262144 % 512 == Px(2, vpn)
  {
  }

  // Every table is reached from its root by its index bits.
  lemma Reached(pt: Heap, loc: map<nat, Loc>, p: nat, vpn: nat)
    requires Shape(pt, loc) && p in pt && vpn < VPNS
    ensures loc[p].level == 1 && loc[p].pre == vpn / 262144 ==>
              IsRoot(loc, loc[p].root) && Table1(pt, loc[p].root, vpn) == p
    ensures loc[p].level == 0 && loc[p].pre == vpn / 512 ==>
              IsRoot(loc, loc[p].root) && Table0(pt, loc[p].root, vpn) == p
  {
    IndexBits(vpn);
    hide Px;
    assert PageOk(pt, loc, p);
    if loc[p].level < 2 {
      var q := loc[p].parent;
      assert PageOk(pt, loc, q);
      if loc[q].level < 2 {
        assert PageOk(pt, loc, loc[q].parent);
      }
    }
  }

  /* The two ways a page table is written. */

  function WithEntry(pt: Heap, p: nat, i: nat, e: Pte): Heap
    requires p in pt && i < |pt[p]|
  {
    pt[p := pt[p][i := e]]
  }

  // Entry i of the last-level table p may become e.
  ghost predicate Writable(pt: Heap, loc: map<nat, Loc>, p: nat, i: nat, e: Pte) {
    && Shape(pt, loc) && p in pt && p in loc && |pt[p]| == ENTRIES && i < ENTRIES && loc[p].level == 0
    && (Present(e) ==> Leaf(e))
    && loc[p].pre * 512 + i < VPNS
  }

  // The new page n may become the table below entry i of table p.
  ghost predicate Hookable(pt: Heap, loc: map<nat, Loc>, p: nat, i: nat, n: nat) {
    && Shape(pt, loc) && p in pt && p in loc && |pt[p]| == ENTRIES && i < ENTRIES && 0 < loc[p].level <= 2
    && !Present(pt[p][i]) && n !in pt && n !in loc && n != 0
  }

  function Hooked(pt: Heap, p: nat, i: nat, n: nat): Heap
    requires p in pt && i < |pt[p]|
  {
    WithEntry(pt, p, i, Pte({V}, n))[n := NoEntries()]
  }

  ghost function HookedLoc(loc: map<nat, Loc>, p: nat, i: nat, n: nat): map<nat, Loc>
    requires p in loc && loc[p].level > 0
  {
    loc[n := Loc(loc[p].root, loc[p].level - 1, loc[p].pre * 512 + i, p)]
  }

  lemma SetEntryShape(pt: Heap, loc: map<nat, Loc>, p: nat, i: nat, e: Pte)
    requires Writable(pt, loc, p, i, e)
    ensures Shape(WithEntry(pt, p, i, e), loc)
  {
    var pt' := WithEntry(pt, p, i, e);
    forall q | q in pt'
      ensures PageOk(pt', loc, q)
    {
      assert PageOk(pt, loc, q);
      forall j | 0 <= j < ENTRIES
        ensures EntryOk(pt', loc, q, j)
      {
        assert EntryOk(pt, loc, q, j);
      }
      hide Present, Leaf;
    }
  }

  // Writing a last-level entry changes the translation of one virtual page of
  // one page table.
  lemma SetEntryMeaning(pt: Heap, loc: map<nat, Loc>, p: nat, i: nat, e: Pte, r: nat, vpn: nat)
    requires Writable(pt, loc, p, i, e) && IsRoot(loc, r) && vpn < VPNS
    ensures var pt' := WithEntry(pt, p, i, e);
            && Table0(pt', r, vpn) == Table0(pt, r, vpn)
            && Entry(pt', r, vpn) ==
               if r == loc[p].root && vpn == loc[p].pre * 512 + i then e else Entry(pt, r, vpn)
  {
    TablesPlaced(pt, loc, r, vpn);
    Reached(pt, loc, p, vpn);
    IndexBits(vpn);
    hide Shape, Px;
  }

  lemma AddTableShape(pt: Heap, loc: map<nat, Loc>, p: nat, i: nat, n: nat)
    requires Hookable(pt, loc, p, i, n)
    ensures Shape(Hooked(pt, p, i, n), HookedLoc(loc, p, i, n))
  {
    var pt', loc' := Hooked(pt, p, i, n), HookedLoc(loc, p, i, n);
    forall q | q in pt'
      ensures PageOk(pt', loc', q)
    {
      if q == n {
        AddTableNew(pt, loc, p, i, n);
      } else {
        AddTableOther(pt, loc, p, i, n, q);
      }
    }
    hide PageOk;
    assert pt'.Keys == pt.Keys + {n} && loc'.Keys == loc.Keys + {n};
  }

  lemma AddTableNew(pt: Heap, loc: map<nat, Loc>, p: nat, i: nat, n: nat)
    requires Hookable(pt, loc, p, i, n)
    ensures PageOk(Hooked(pt, p, i, n), HookedLoc(loc, p, i, n), n)
  {
    hide Shape, Leaf;
    AddTableNewParent(pt, loc, p, i, n);
    hide ParentOk;
    assert Hooked(pt, p, i, n)[n] == NoEntries();
  }

  lemma AddTableNewParent(pt: Heap, loc: map<nat, Loc>, p: nat, i: nat, n: nat)
    requires Hookable(pt, loc, p, i, n)
    ensures ParentOk(Hooked(pt, p, i, n), HookedLoc(loc, p, i, n), n)
  {
  }

  lemma AddTableOther(pt: Heap, loc: map<nat, Loc>, p: nat, i: nat, n: nat, q: nat)
    requires Hookable(pt, loc, p, i, n) && q in pt
    ensures q in loc && PageOk(Hooked(pt, p, i, n), HookedLoc(loc, p, i, n), q)
  {
    assert PageOk(pt, loc, q);
    AddTableParent(pt, loc, p, i, n, q);
    forall j | 0 <= j < ENTRIES
      ensures EntryOk(Hooked(pt, p, i, n), HookedLoc(loc, p, i, n), q, j)
    {
      assert EntryOk(pt, loc, q, j);
      AddTableEntry(pt, loc, p, i, n, q, j);
    }
    hide Shape, EntryOk, ParentOk;
  }

  lemma AddTableEntry(pt: Heap, loc: map<nat, Loc>, p: nat, i: nat, n: nat, q: nat, j: nat)
    requires p in pt && p in loc && |pt[p]| == ENTRIES && i < ENTRIES && 0 < loc[p].level
    requires n !in pt && n !in loc && q in pt && q in loc && |pt[q]| == ENTRIES && j < ENTRIES
    requires EntryOk(pt, loc, q, j)
    ensures EntryOk(Hooked(pt, p, i, n), HookedLoc(loc, p, i, n), q, j)
  {
  }

  lemma AddTableParent(pt: Heap, loc: map<nat, Loc>, p: nat, i: nat, n: nat, q: nat)
    requires Hookable(pt, loc, p, i, n) && q in pt
    ensures q in loc && ParentOk(Hooked(pt, p, i, n), HookedLoc(loc, p, i, n), q)
  {
    assert PageOk(pt, loc, q);
    hide Shape, EntryOk, NoEntries, Leaf;
  }

  // Hooking in an empty table changes no translation.
  lemma AddTableMeaning(pt: Heap, loc: map<nat, Loc>, p: nat, i: nat, n: nat, r: nat, vpn: nat)
    requires Hookable(pt, loc, p, i, n) && IsRoot(loc, r) && vpn < VPNS
    ensures var pt' := Hooked(pt, p, i, n);
            && Entry(pt', r, vpn) == Entry(pt, r, vpn)
            && (Table0(pt, r, vpn) != 0 ==> Table0(pt', r, vpn) == Table0(pt, r, vpn))
  {
    TablesPlaced(pt, loc, r, vpn);
    Reached(pt, loc, p, vpn);
    IndexBits(vpn);
    hide Shape, Px;
  }

  /* One level of a walk. */

  function Pre(level: nat, vpn: nat): nat {
    if level == 0 then vpn / 512 else if level == 1 then vpn / 262144 else 0
  }

  // p is the table of that level on the way from root to vpn.
  ghost predicate OnPath(pt: Heap, loc: map<nat, Loc>, root: nat, p: nat, level: nat, vpn: nat) {
    && p in pt && p in loc && |pt[p]| == ENTRIES && level <= 2
    && loc[p].root == root && loc[p].level == level && loc[p].pre == Pre(level, vpn)
  }

  lemma Descend(pt: Heap, loc: map<nat, Loc>, root: nat, p: nat, level: nat, vpn: nat)
    requires Shape(pt, loc) && OnPath(pt, loc, root, p, level, vpn) && 0 < level && vpn < VPNS
    requires Present(pt[p][Px(level, vpn)])
    ensures OnPath(pt, loc, root, pt[p][Px(level, vpn)].ppn, level - 1, vpn)
  {
    assert PageOk(pt, loc, p) && EntryOk(pt, loc, p, Px(level, vpn));
    var c := pt[p][Px(level, vpn)].ppn;
    assert c in pt && c in loc && PageOk(pt, loc, c);
    IndexBits(vpn);
    hide Px, Shape, PageOk;
  }

  lemma HookedOnPath(pt: Heap, loc: map<nat, Loc>, root: nat, p: nat, level: nat, vpn: nat, n: nat)
    requires OnPath(pt, loc, root, p, level, vpn) && 0 < level && vpn < VPNS
    ensures OnPath(Hooked(pt, p, Px(level, vpn), n), HookedLoc(loc, p, Px(level, vpn), n), root, n, level - 1, vpn)
  {
  }

  // The end of a walk is the last-level table, wherever the page table has one.
  lemma PathEnds(pt: Heap, loc: map<nat, Loc>, root: nat, p: nat, vpn: nat)
    requires Shape(pt, loc) && OnPath(pt, loc, root, p, 0, vpn) && vpn < VPNS
    ensures Table0(pt, root, vpn) == p && p != 0
  {
    Reached(pt, loc, p, vpn);
  }

  lemma PathStops(pt: Heap, loc: map<nat, Loc>, root: nat, p: nat, level: nat, vpn: nat)
    requires Shape(pt, loc) && IsRoot(loc, root) && OnPath(pt, loc, root, p, level, vpn) && 0 < level && vpn < VPNS
    requires !Present(pt[p][Px(level, vpn)])
    ensures Table0(pt, root, vpn) == 0
  {
  }
}
