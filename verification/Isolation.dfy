/** What an operation on some page tables leaves alone: all other page tables,
    their tables and the frames behind them. */
module Isolation {
  import opened Sv39
  import opened Vm
  import opened Uvm
  import opened UserMem
  import opened CopyPage
  import opened Teardown

  ghost predicate TablesApart(s: Snap, s': Snap, roots: set<nat>) {
    && (forall q | q in s.loc && s.loc[q].root !in roots :: q in s'.loc && s'.loc[q] == s.loc[q])
    && (forall q | q in s'.loc && s'.loc[q].root !in roots :: q in s.loc && s.loc[q].root !in roots)
  }

  ghost predicate EntriesApart(s: Snap, s': Snap, roots: set<nat>) {
    forall r, v: nat | IsRoot(s.loc, r) && r !in roots && v < VPNS :: Entry(s'.pt, r, v) == Entry(s.pt, r, v)
  }

  predicate Of(u: Use, roots: set<nat>) { u.Frame? && u.root in roots }

  ghost predicate UsedApart(s: Snap, s': Snap, roots: set<nat>) {
    && (forall p | p in s.used && !Of(s.used[p], roots) :: p in s'.used && s'.used[p] == s.used[p])
    && (forall p | p in s'.used && !Of(s'.used[p], roots) :: p in s.used && !Of(s.used[p], roots))
  }

  // Only the page tables at `roots` and their frames may differ.
  ghost predicate Apart(s: Snap, s': Snap, roots: set<nat>) {
    TablesApart(s, s', roots) && EntriesApart(s, s', roots) && UsedApart(s, s', roots)
  }

  lemma ApartRefl(s: Snap, roots: set<nat>)
    ensures Apart(s, s, roots)
  {
  }

  lemma ApartWiden(s: Snap, s': Snap, roots: set<nat>, more: set<nat>)
    requires Apart(s, s', roots) && roots <= more
    ensures Apart(s, s', more)
  {
  }

  lemma ApartTrans(s: Snap, k: Snap, s': Snap, roots: set<nat>)
    requires Apart(s, k, roots) && Apart(k, s', roots)
    ensures Apart(s, s', roots)
  {
  }

  lemma ApartQuiet(s: Snap, s': Snap, root: nat)
    requires Quiet(s, s', root)
    ensures Apart(s, s', {root})
  {
  }

  lemma ApartSameUsed(s: Snap, s': Snap, root: nat, lo: nat, hi: nat)
    requires Step(s, s', root, lo, hi) && s'.used == s.used
    ensures Apart(s, s', {root})
  {
  }

  lemma ApartGrows(s: Snap, s': Snap, root: nat, lo: nat, hi: nat, f: Rights)
    requires Grows(s, s', root, lo, hi, f)
    ensures Apart(s, s', {root})
  {
  }

  lemma ApartUnmaps(s: Snap, s': Snap, root: nat, lo: nat, hi: nat, doFree: bool)
    requires Unmaps(s, s', root, lo, hi, doFree)
    ensures Apart(s, s', {root})
  {
  }

  // Tearing down one page table leaves the others alone.
  lemma ApartTreeGone(s: Snap, s': Snap, root: nat)
    requires s' == Minus(s, Tree(s.loc, root)) && OthersKept(s, s', root)
    ensures Apart(s, s', {root})
  {
  }

  // With nothing left of the roots before and after, the same pages are free.
  lemma SameFree(s: Snap, s': Snap, pages: set<nat>, roots: set<nat>)
    requires Good(s, pages) && Good(s', pages) && Apart(s, s', roots)
    requires Gone(s, roots) && Gone(s', roots)
    ensures s'.free == s.free
  {
  }

  ghost predicate Gone(s: Snap, roots: set<nat>) {
    && (forall q | q in s.loc :: s.loc[q].root !in roots)
    && (forall p | p in s.used :: !Of(s.used[p], roots))
  }
}
