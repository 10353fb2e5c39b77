/** A process's two page tables: user memory, and the kernel page table that
    mirrors it below the devices. */
module Mirror {
  import opened Sv39
  import opened Vm
  import opened Uvm
  import opened UserMem
  import opened CopyPage
  import opened Isolation
  import opened Kvm
  import opened UserTables

  /* The user page table under the operations. */

  lemma UserGrown(s: Snap, s': Snap, root: nat, n: nat, hi: nat, f: Rights, tf: nat, tramp: nat, own: bool)
    requires UserTable(s, root, n, tf, tramp, own) && n <= hi <= TOP
    requires Grows(s, s', root, n, hi, f) && RightsOk(f, n, hi)
    ensures UserTable(s', root, hi, tf, tramp, own)
  {
    hide Entry, Table0;
    forall v: nat | v < VPNS && !(n <= v < hi)
      ensures Entry(s'.pt, root, v) == Entry(s.pt, root, v)
    {
      StepSame(s, s', root, n, hi, v);
    }
    hide Step, FlagsAt;
    GrownFrames(s, s', root, n, hi);
    GrownImage(s, s', root, n, hi, f);
    hide Owned, Frames;
  }

  ghost predicate SameUse(s: Snap, s': Snap, root: nat, lo: nat, hi: nat) {
    && (forall p | p in s.used :: p in s'.used && s'.used[p] == s.used[p])
    && (forall p | p in s'.used && p !in s.used ::
          s'.used[p].Frame? && s'.used[p].root == root && lo <= s'.used[p].vpn < hi)
  }

  lemma GrownFrames(s: Snap, s': Snap, root: nat, lo: nat, hi: nat)
    requires s'.used - Frames(s'.used, root, lo, hi) == s.used
    ensures SameUse(s, s', root, lo, hi)
  {
  }

  lemma GrownImage(s: Snap, s': Snap, root: nat, n: nat, hi: nat, f: Rights)
    requires Image(s, root, n) && n <= hi <= TOP && SameUse(s, s', root, n, hi) && IsRoot(s'.loc, root)
    requires forall v: nat | v < VPNS && !(n <= v < hi) :: Entry(s'.pt, root, v) == Entry(s.pt, root, v)
    requires forall v: nat | n <= v < hi :: Entry(s'.pt, root, v).flags == FlagsAt(f, v) && Owned(s', root, v)
    requires RightsOk(f, n, hi)
    ensures Image(s', root, hi)
  {
  }

  lemma UserShrunk(s: Snap, s': Snap, root: nat, n: nat, lo: nat, tf: nat, tramp: nat, own: bool)
    requires UserTable(s, root, n, tf, tramp, own) && lo <= n && Unmaps(s, s', root, lo, n, true)
    ensures UserTable(s', root, lo, tf, tramp, own)
  {
  }

  // The frames and translations of one page table, unchanged.
  ghost predicate UserSame(s: Snap, s': Snap, root: nat) {
    && (IsRoot(s.loc, root) ==> IsRoot(s'.loc, root))
    && (forall v: nat | v < VPNS :: Entry(s'.pt, root, v) == Entry(s.pt, root, v))
    && (forall p | p in s.used && Of(s.used[p], {root}) :: p in s'.used && s'.used[p] == s.used[p])
    && (forall p | p in s'.used && Of(s'.used[p], {root}) :: p in s.used && s.used[p] == s'.used[p])
  }

  lemma UserKept(s: Snap, s': Snap, root: nat, n: nat, tf: nat, tramp: nat, own: bool)
    requires UserTable(s, root, n, tf, tramp, own) && UserSame(s, s', root)
    ensures UserTable(s', root, n, tf, tramp, own)
  {
  }

  lemma ApartSame(s: Snap, s': Snap, roots: set<nat>, root: nat)
    requires Apart(s, s', roots) && root !in roots && IsRoot(s.loc, root)
    ensures UserSame(s, s', root)
  {
  }

  lemma QuietSame(s: Snap, s': Snap, root: nat)
    requires Quiet(s, s', root) && IsRoot(s.loc, root)
    ensures UserSame(s, s', root)
  {
  }

  // The trapframe page tf is accounted to the page table at root.
  lemma UserClaims(s: Snap, s': Snap, root: nat, n: nat, tf: nat, tramp: nat)
    requires UserTable(s, root, n, tf, tramp, false) && tf in s.used && !Of(s.used[tf], {root})
    requires s' == s.(used := s.used[tf := Frame(root, TOP)])
    ensures UserTable(s', root, n, tf, tramp, true)
  {
  }

  lemma UserLoses(s: Snap, s': Snap, root: nat, n: nat, tf: nat, tramp: nat)
    requires UserTable(s, root, n, tf, tramp, true)
    requires s'.pt == s.pt && s'.loc == s.loc && s'.used - {tf} == s.used - {tf}
    requires tf in s'.used ==> !Of(s'.used[tf], {root})
    ensures UserTable(s', root, n, tf, tramp, false)
  {
    hide Entry;
    UsedMinus(s.used, s'.used, tf);
    forall v: nat | v < n
      ensures Owned(s', root, v)
    {
      assert Owned(s, root, v);
    }
    assert Frames(s'.used, root, n, TOP) == {} by {
      forall p | p in s'.used
        ensures p !in Frames(s'.used, root, n, TOP)
      {
        assert p != tf ==> p in s.used && p !in Frames(s.used, root, n, TOP);
      }
    }
  }

  lemma UsedMinus(u: map<nat, Use>, u': map<nat, Use>, x: nat)
    requires u' - {x} == u - {x}
    ensures forall p | p != x :: (p in u <==> p in u') && (p in u ==> u[p] == u'[p])
  {
    forall p | p != x
      ensures (p in u <==> p in u') && (p in u ==> u[p] == u'[p])
    {
      assert p in u <==> p in u - {x};
      assert p in u' <==> p in u' - {x};
      assert p in u ==> u[p] == (u - {x})[p];
      assert p in u' ==> u'[p] == (u' - {x})[p];
    }
  }

  /* The kernel page table. */

  // Below page lim the page table at root has the entries f and nothing else;
  // from there on it maps the regions rs.
  ghost predicate KernelTable(s: Snap, root: nat, lim: nat, rs: seq<Region>, f: map<nat, Pte>) {
    && IsRoot(s.loc, root) && NoFrames(s, root)
    && forall v: nat | v < VPNS ::
         Entry(s.pt, root, v) == if v < lim then (if v in f then f[v] else ZERO_PTE) else Fixed(rs, v)
  }

  // Masked copies of the user entries of the pages in `pages`.
  ghost function Copied(s: Snap, u: nat, pages: set<nat>, mask: set<Flag>): map<nat, Pte> {
    map v | v in pages :: Masked(Entry(s.pt, u, v), mask)
  }

  predicate Between(v: nat, lo: nat, hi: nat) { lo <= v < hi }

  function Range(lo: nat, hi: nat): set<nat> {
    set v: nat | v < hi && Between(v, lo, hi)
  }

  lemma KernelStarts(s: Snap, root: nat, lim: nat, rs: seq<Region>)
    requires Shows(s, root, rs) && NoFrames(s, root) && forall j | 0 <= j < |rs| :: lim <= PageOf(rs[j].va)
    ensures KernelTable(s, root, lim, rs, map[])
  {
    hide Entry;
    forall v: nat | v < lim
      ensures Fixed(rs, v) == ZERO_PTE
    {
      FixedElsewhere(rs, v);
    }
    hide Fixed, PageOf;
  }

  // vmcopypage puts copies where it goes and keeps the rest.
  lemma KernelCopies(s: Snap, s': Snap, u: nat, k: nat, lim: nat, rs: seq<Region>, f: map<nat, Pte>,
                     lo: nat, hi: nat, mask: set<Flag>)
    requires KernelTable(s, k, lim, rs, f) && Copies(s, s', u, k, lo, hi, mask) && (lo < hi ==> hi <= lim)
    ensures KernelTable(s', k, lim, rs, f + Copied(s, u, Range(lo, hi), mask))
  {
    hide Entry, Table0, Fixed, Masked;
    forall v: nat | v < VPNS && !(lo <= v < hi)
      ensures Entry(s'.pt, k, v) == Entry(s.pt, k, v)
    {
      StepSame(s, s', k, lo, hi, v);
    }
    hide Step;
  }

  lemma KernelUnmaps(s: Snap, s': Snap, k: nat, lim: nat, rs: seq<Region>, f: map<nat, Pte>, lo: nat, hi: nat)
    requires KernelTable(s, k, lim, rs, f) && Unmaps(s, s', k, lo, hi, false) && (lo < hi ==> hi <= lim)
    ensures KernelTable(s', k, lim, rs, f - Range(lo, hi))
  {
  }

  lemma KernelKept(s: Snap, s': Snap, roots: set<nat>, k: nat, lim: nat, rs: seq<Region>, f: map<nat, Pte>)
    requires KernelTable(s, k, lim, rs, f) && Apart(s, s', roots) && k !in roots
    ensures KernelTable(s', k, lim, rs, f)
  {
  }
}
