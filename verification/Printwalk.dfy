/** vmprint: the listing of a page table's valid entries, and how to read it back. */
module Printwalk {
  import opened Sv39

  // A line of output: how deep, which index, which entry.
  datatype Line = Line(depth: nat, index: nat, pte: Pte)

  // The valid entries of a table from some index on, each with those of the table
  // it points to.
  datatype Forest = Nil | Cons(index: nat, pte: Pte, sub: Forest, rest: Forest)

  // From p on, pointers lead through at most h more tables.
  ghost predicate Bounded(pt: Heap, p: nat, h: nat)
    decreases h
  {
    && p in pt && |pt[p]| == ENTRIES
    && forall i | 0 <= i < ENTRIES && Pointer(pt[p][i]) :: h > 0 && Bounded(pt, pt[p][i].ppn, h - 1)
  }

  ghost function Valid(pt: Heap, p: nat, i: nat, h: nat): Forest
    requires Bounded(pt, p, h) && i <= ENTRIES
    decreases h, ENTRIES - i
  {
    if i == ENTRIES then Nil
    else
      var e := pt[p][i];
      if Pointer(e) then Cons(i, e, Valid(pt, e.ppn, 0, h - 1), Valid(pt, p, i + 1, h))
      else if Present(e) then Cons(i, e, Nil, Valid(pt, p, i + 1, h))
      else Valid(pt, p, i + 1, h)
  }

  function Listing(f: Forest, depth: nat): seq<Line> {
    match f
    case Nil => []
    case Cons(i, e, sub, rest) => [Line(depth, i, e)] + Listing(sub, depth + 1) + Listing(rest, depth)
  }

  // printwalk, as the lines it prints.
  method PrintWalk(pt: Heap, pagetable: nat, depth: nat, ghost h: nat) returns (out: seq<Line>)
    requires Bounded(pt, pagetable, h)
    ensures out == Listing(Valid(pt, pagetable, 0, h), depth) && InOrder(out, depth, 0)
    decreases h
  {
    hide InOrder;
    out := [];
    var i := 0;
    while i < 512
      invariant 0 <= i <= 512
      invariant out + Listing(Valid(pt, pagetable, i, h), depth) == Listing(Valid(pt, pagetable, 0, h), depth)
    {
      ghost var before := out;
      var pte := pt[pagetable][i];
      if Pointer(pte) {
        // this entry points to a lower-level page table
        out := out + [Line(depth, i, pte)];
        var lines := PrintWalk(pt, pte.ppn, depth + 1, h - 1);
        out := out + lines;
        assert out == before + ([Line(depth, i, pte)] + lines);
      } else if Present(pte) {
        out := out + [Line(depth, i, pte)];
      }
      i := i + 1;
    }
    PrintedInOrder(pt, pagetable, h, depth);
  }

  // Reads the entries of one table back, from lines that start at its depth; and
  // what follows them.
  function Decode(lines: seq<Line>, depth: nat): (r: (Forest, seq<Line>))
    ensures |r.1| <= |lines|
    decreases |lines|
  {
    if lines == [] || lines[0].depth != depth then (Nil, lines)
    else
      var (sub, after) := Decode(lines[1..], depth + 1);
      var (rest, end) := Decode(after, depth);
      (Cons(lines[0].index, lines[0].pte, sub, rest), end)
  }

  // The listing of any forest reads back as that forest.
  lemma {:induction false} RoundTrip(f: Forest, depth: nat, after: seq<Line>)
    requires after == [] || after[0].depth < depth
    ensures Decode(Listing(f, depth) + after, depth) == (f, after)
    decreases f
  {
    match f
    case Nil =>
      assert Listing(f, depth) + after == after;
    case Cons(i, e, sub, rest) =>
      Starts(rest, depth);
      RoundTrip(sub, depth + 1, Listing(rest, depth) + after);
      RoundTrip(rest, depth, after);
      Splits(f, depth, after);
  }

  // A listing starts at its depth.
  lemma Starts(f: Forest, depth: nat)
    ensures Listing(f, depth) != [] ==> Listing(f, depth)[0].depth == depth
  {
  }

  lemma Splits(f: Forest, depth: nat, after: seq<Line>)
    requires f.Cons?
    ensures var lines := Listing(f, depth) + after;
            && lines != [] && lines[0] == Line(depth, f.index, f.pte)
            && lines[1..] == Listing(f.sub, depth + 1) + (Listing(f.rest, depth) + after)
  {
  }

  lemma ListingDecodes(pt: Heap, p: nat, h: nat, depth: nat)
    requires Bounded(pt, p, h)
    ensures Decode(Listing(Valid(pt, p, 0, h), depth), depth) == (Valid(pt, p, 0, h), [])
  {
    var f := Valid(pt, p, 0, h);
    RoundTrip(f, depth, []);
    assert Listing(f, depth) + [] == Listing(f, depth);
  }

  /* What is in a listing. */

  datatype Found = Absent | Entry(pte: Pte)

  // The entry with that index among the entries of one table.
  function Sibling(f: Forest, i: nat): Forest {
    match f
    case Nil => Nil
    case Cons(j, _, _, rest) => if j == i then f else Sibling(rest, i)
  }

  // The valid entry reached by these indices, one for each level.
  ghost function At(pt: Heap, p: nat, path: seq<nat>): Found
    decreases |path|
  {
    if path == [] then Absent
    else
      var e := Get(pt, p, path[0]);
      if !Present(e) then Absent
      else if |path| == 1 then Entry(e)
      else if Pointer(e) then At(pt, e.ppn, path[1..])
      else Absent
  }

  function Lookup(f: Forest, path: seq<nat>): Found
    decreases |path|
  {
    if path == [] then Absent
    else
      var g := Sibling(f, path[0]);
      if g.Nil? then Absent else if |path| == 1 then Entry(g.pte) else Lookup(g.sub, path[1..])
  }

  lemma {:induction false} SiblingIs(pt: Heap, p: nat, i: nat, h: nat, k: nat)
    requires Bounded(pt, p, h) && i <= ENTRIES
    ensures var g := Sibling(Valid(pt, p, i, h), k);
            if i <= k < ENTRIES && Present(pt[p][k])
            then
              && g.Cons? && g.pte == pt[p][k]
              && (if Pointer(pt[p][k]) then h > 0 && g.sub == Valid(pt, pt[p][k].ppn, 0, h - 1) else g.sub.Nil?)
            else g.Nil?
    decreases ENTRIES - i
  {
    if i < ENTRIES {
      SiblingIs(pt, p, i + 1, h, k);
    }
  }

  // The tree behind a listing has exactly the valid entries of the page table.
  lemma {:induction false} LookupIs(pt: Heap, p: nat, h: nat, path: seq<nat>)
    requires Bounded(pt, p, h)
    ensures Lookup(Valid(pt, p, 0, h), path) == At(pt, p, path)
    decreases |path|
  {
    if path != [] {
      SiblingIs(pt, p, 0, h, path[0]);
      if |path| > 1 && path[0] < ENTRIES && Pointer(pt[p][path[0]]) {
        LookupIs(pt, pt[p][path[0]].ppn, h - 1, path[1..]);
      }
    }
  }

  // Every entry is listed once: the indices of one table increase.
  predicate Increasing(f: Forest, lo: nat) {
    f.Nil? || (lo <= f.index && Increasing(f.sub, 0) && Increasing(f.rest, f.index + 1))
  }

  lemma {:induction false} ListedOnce(pt: Heap, p: nat, i: nat, h: nat)
    requires Bounded(pt, p, h) && i <= ENTRIES
    ensures Increasing(Valid(pt, p, i, h), i)
    decreases h, ENTRIES - i
  {
    if i < ENTRIES {
      ListedOnce(pt, p, i + 1, h);
      if Pointer(pt[p][i]) {
        ListedOnce(pt, pt[p][i].ppn, 0, h - 1);
      } else if !Present(pt[p][i]) {
        Later(Valid(pt, p, i + 1, h), i + 1, i);
      }
    }
  }

  lemma Later(f: Forest, lo: nat, lo': nat)
    requires Increasing(f, lo) && lo' <= lo
    ensures Increasing(f, lo')
  {
  }

  // The order of the lines: a table's entries by their indices, from lo on, and after
  // each, one deeper, those of the table that it points to.
  ghost predicate InOrder(lines: seq<Line>, depth: nat, lo: nat) {
    && (lines != [] ==> lines[0].depth == depth)
    && (forall j | 0 <= j < |lines| :: lines[j].depth >= depth && (lines[j].depth == depth ==> lo <= lines[j].index))
    && (forall j, k | 0 <= j < k < |lines| && k == j + 1 :: lines[k].depth <= lines[j].depth + 1)
    && (forall j, k | 0 <= j < k < |lines| && lines[j].depth == lines[k].depth && NoneAbove(lines, j, k) ::
          lines[j].index < lines[k].index)
  }

  // No line in between belongs further up, so both are of the same table.
  ghost predicate NoneAbove(lines: seq<Line>, j: nat, k: nat)
    requires j < k < |lines|
  {
    forall m | j < m < k :: lines[m].depth >= lines[j].depth
  }

  lemma {:induction false} ListingInOrder(f: Forest, depth: nat, lo: nat)
    requires Increasing(f, lo)
    ensures InOrder(Listing(f, depth), depth, lo)
  {
    if f.Cons? {
      ListingInOrder(f.sub, depth + 1, 0);
      ListingInOrder(f.rest, depth, f.index + 1);
      OrderJoin(Line(depth, f.index, f.pte), Listing(f.sub, depth + 1), Listing(f.rest, depth), lo);
    }
  }

  lemma OrderJoin(l: Line, a: seq<Line>, b: seq<Line>, lo: nat)
    requires lo <= l.index && InOrder(a, l.depth + 1, 0) && InOrder(b, l.depth, l.index + 1)
    ensures InOrder([l] + a + b, l.depth, lo)
  {
    hide NoneAbove;
    var lines := [l] + a + b;
    forall j, k | 0 <= j < k < |lines| && lines[j].depth == lines[k].depth && NoneAbove(lines, j, k)
      ensures lines[j].index < lines[k].index
    {
      PairJoin(l, a, b, j, k);
    }
  }

  lemma PairJoin(l: Line, a: seq<Line>, b: seq<Line>, j: nat, k: nat)
    requires InOrder(a, l.depth + 1, 0) && InOrder(b, l.depth, l.index + 1)
    requires var lines := [l] + a + b;
             j < k < |lines| && lines[j].depth == lines[k].depth && NoneAbove(lines, j, k)
    ensures var lines := [l] + a + b; lines[j].index < lines[k].index
  {
    var lines, n := [l] + a + b, 1 + |a|;
    assert forall x | 1 <= x < n :: lines[x] == a[x - 1];
    assert forall x | n <= x < |lines| :: lines[x] == b[x - n];
    assert n < |lines| ==> lines[n] == b[0];
    if n <= j {
      assert NoneAbove(b, j - n, k - n) by {
        forall m | j - n < m < k - n
          ensures b[m].depth >= b[j - n].depth
        {
          assert lines[m + n] == b[m] && lines[j] == b[j - n];
        }
      }
    } else if 1 <= j && k < n {
      assert NoneAbove(a, j - 1, k - 1) by {
        forall m | j - 1 < m < k - 1
          ensures a[m].depth >= a[j - 1].depth
        {
          assert lines[m + 1] == a[m] && lines[j] == a[j - 1];
        }
      }
    }
  }

  // So a page table is printed in the order of its entries.
  lemma PrintedInOrder(pt: Heap, p: nat, h: nat, depth: nat)
    requires Bounded(pt, p, h)
    ensures InOrder(Listing(Valid(pt, p, 0, h), depth), depth, 0)
  {
    ListedOnce(pt, p, 0, h);
    ListingInOrder(Valid(pt, p, 0, h), depth, 0);
  }

  /* Page tables. */

  // The tables of a page table are at most three deep.
  lemma {:induction false} TableBounded(pt: Heap, loc: map<nat, Loc>, p: nat)
    requires Shape(pt, loc) && p in pt
    ensures p in loc && Bounded(pt, p, loc[p].level)
    decreases if p in loc then loc[p].level else 0
  {
    assert p in loc.Keys && PageOk(pt, loc, p);
    forall i | 0 <= i < ENTRIES && Pointer(pt[p][i])
      ensures loc[p].level > 0 && Bounded(pt, pt[p][i].ppn, loc[p].level - 1)
    {
      assert EntryOk(pt, loc, p, i);
      TableBounded(pt, loc, pt[p][i].ppn);
    }
  }

  ghost predicate SameListing(pt: Heap, root: nat, pt': Heap, root': nat)
    requires Bounded(pt, root, 2) && Bounded(pt', root', 2)
  {
    Listing(Valid(pt, root, 0, 2), 1) == Listing(Valid(pt', root', 0, 2), 1)
  }

  // A translation is the entry reached by the three indices of the virtual page.
  lemma EntryAt(pt: Heap, loc: map<nat, Loc>, root: nat, v: nat)
    requires Shape(pt, loc) && IsRoot(loc, root) && v < VPNS
    ensures At(pt, root, [Px(2, v), Px(1, v), Px(0, v)]) ==
            if Present(Sv39.Entry(pt, root, v)) then Entry(Sv39.Entry(pt, root, v)) else Absent
  {
    hide Px;
    TablesPlaced(pt, loc, root, v);
    assert PageOk(pt, loc, root) && EntryOk(pt, loc, root, Px(2, v));
    var t1, t0 := Table1(pt, root, v), Table0(pt, root, v);
    var path := [Px(2, v), Px(1, v), Px(0, v)];
    assert path[1..] == [Px(1, v), Px(0, v)] && path[1..][1..] == [Px(0, v)];
    if t1 != 0 {
      assert PageOk(pt, loc, t1) && EntryOk(pt, loc, t1, Px(1, v));
      assert At(pt, root, path) == At(pt, t1, path[1..]);
      assert t0 != 0 ==> At(pt, t1, path[1..]) == At(pt, t0, [Px(0, v)]);
    }
    hide Shape, PageOk, EntryOk;
  }

  // Two page tables with the same listing translate every page alike.
  lemma ListingDecides(pt: Heap, loc: map<nat, Loc>, root: nat, pt': Heap, loc': map<nat, Loc>, root': nat, v: nat)
    requires Shape(pt, loc) && IsRoot(loc, root) && Shape(pt', loc') && IsRoot(loc', root') && v < VPNS
    requires Bounded(pt, root, 2) && Bounded(pt', root', 2) && SameListing(pt, root, pt', root')
    ensures Present(Sv39.Entry(pt, root, v)) <==> Present(Sv39.Entry(pt', root', v))
    ensures Present(Sv39.Entry(pt, root, v)) ==> Sv39.Entry(pt', root', v) == Sv39.Entry(pt, root, v)
  {
    var path := [Px(2, v), Px(1, v), Px(0, v)];
    ListingDecodes(pt, root, 2, 1);
    ListingDecodes(pt', root', 2, 1);
    LookupIs(pt, root, 2, path);
    LookupIs(pt', root', 2, path);
    EntryAt(pt, loc, root, v);
    EntryAt(pt', loc', root', v);
    hide Shape, Valid, Listing, Decode, Lookup, At, Px, Bounded;
  }
}
