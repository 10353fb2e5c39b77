/** User memory: the image of a process in its page table, and how uvmalloc,
    uvmdealloc and uvmcopy change it. */
module UserMem {
  import opened Sv39
  import opened Vm
  import opened Uvm

  // TRAPFRAME and TRAMPOLINE are the two highest pages.
  const TOP: nat := 0x3ff_fffe
  const USER: set<Flag> := {V, R, W, X, U}

  // Pages lo to hi are mapped readable, each to a frame of its own.
  ghost predicate Backed(s: Snap, root: nat, lo: nat, hi: nat) {
    forall v: nat | lo <= v < hi ::
      Present(Entry(s.pt, root, v)) && R in Entry(s.pt, root, v).flags && Owned(s, root, v)
  }

  // Pages lo to hi are not mapped and have no frames.
  ghost predicate Vacant(s: Snap, root: nat, lo: nat, hi: nat) {
    && (forall v: nat | lo <= v < hi :: Entry(s.pt, root, v) == ZERO_PTE)
    && Frames(s.used, root, lo, hi) == {}
  }

  // The first n pages are user memory; above them, up to the trapframe, is nothing.
  ghost predicate Image(s: Snap, root: nat, n: nat) {
    IsRoot(s.loc, root) && n <= TOP && Backed(s, root, 0, n) && Vacant(s, root, n, TOP)
  }

  // The flags new pages get: all user rights, or those of another page table.
  datatype Rights = All | Like(pt: Heap, root: nat)

  ghost function FlagsAt(f: Rights, v: nat): set<Flag> {
    if f.All? then USER else Entry(f.pt, f.root, v).flags
  }

  // From s0 to s, pages lo to hi were given fresh frames, mapped with those
  // rights, and nothing else changed.
  ghost predicate Grows(s0: Snap, s: Snap, root: nat, lo: nat, hi: nat, f: Rights) {
    && IsRoot(s0.loc, root) && IsRoot(s.loc, root) && Step(s0, s, root, lo, hi)
    && (forall v: nat | lo <= v < hi ::
          Entry(s.pt, root, v).flags == FlagsAt(f, v) && Owned(s, root, v))
    && s.used - Frames(s.used, root, lo, hi) == s0.used
  }

  ghost predicate RightsOk(f: Rights, lo: nat, hi: nat) {
    forall v: nat | lo <= v < hi :: V in FlagsAt(f, v) && R in FlagsAt(f, v)
  }

  lemma GrowsNone(s: Snap, root: nat, lo: nat, f: Rights)
    requires IsRoot(s.loc, root)
    ensures Grows(s, s, root, lo, lo, f)
  {
  }

  // The page p becomes the frame behind page v of root.
  ghost method Claim(m: Memory, p: nat, root: nat, v: nat)
    requires m.Inv() && p in m.used
    modifies m`used
    ensures m.Inv() && m.used == old(m.used)[p := Frame(root, v)]
  {
    FrameFreed(m.S(), m.pages);
    hide Shape;
    m.used := m.used[p := Frame(root, v)];
    hide Good;
    assert Accounts(m.S(), m.pages);
  }

  lemma StepSides(s: Snap, k: Snap, k': Snap, s': Snap, root: nat, lo: nat, hi: nat)
    requires k.pt == s.pt && k.loc == s.loc && k'.pt == s'.pt && k'.loc == s'.loc && Step(k, k', root, lo, hi)
    ensures Step(s, s', root, lo, hi)
  {
  }

  // kalloc of a page that is not for a page table.
  method TakeFrame(m: Memory) returns (p: nat)
    requires m.Inv()
    modifies m
    ensures m.Inv() && (p == 0 ==> m.S() == old(m.S()) && m.free == {})
    ensures p != 0 ==> p in old(m.free) && p !in old(m.used)
                       && m.S() == old(m.S()).(free := old(m.free) - {p}, used := old(m.used)[p := Held])
    ensures Enough(p != 0, 1, old(m.free), m.free)
  {
    FrameFreed(m.S(), m.pages);
    hide Shape;
    p := m.Kalloc();
    hide Accounts;
  }

  // Page a of root is given the page mem, or mem is given back.
  method MapFrame(m: Memory, root: nat, a: nat, mem: nat, perm: set<Flag>) returns (ok: bool)
    requires m.Inv() && IsRoot(m.loc, root) && mem in m.used && R in perm && V in perm
    requires a < MAXVPN && !Present(Entry(m.pt, root, a))   // or mappages panics
    modifies m
    ensures m.Inv()
    ensures ok ==> Step(old(m.S()), m.S(), root, a, a + 1) && Entry(m.pt, root, a) == Pte(perm, mem)
                   && m.used == old(m.used)[mem := Frame(root, a)]
    ensures !ok ==> Step(old(m.S()), m.S(), root, 0, 0) && m.used == old(m.used) - {mem}
    ensures Enough(ok, Lacks(old(m.S()), root, a), old(m.free), m.free)
  {
    hide Lacks, Good, Step, Entry, IsRoot, Present;
    ghost var s := m.S();
    assert perm + {V} == perm;
    var r := MapPage(m, root, a, mem, perm);
    ghost var k := m.S();
    assert !r.Panic?;
    if r.NoMemory? {
      FreeFrame(m, mem);
      StepSides(s, s, k, m.S(), root, 0, 0);
      return false;
    }
    Claim(m, mem, root, a);
    StepSides(s, s, k, m.S(), root, a, a + 1);
    ok := true;
  }

  lemma TakenBack(used: map<nat, Use>, p: nat, u: Use)
    requires p !in used
    ensures used[p := Held] - {p} == used && used[p := Held][p := u] == used[p := u]
  {
  }

  // Page a is given a fresh frame p.
  method GrowPage(m: Memory, root: nat, a: nat, perm: set<Flag>) returns (ok: bool, ghost p: nat)
    requires m.Inv() && IsRoot(m.loc, root) && R in perm && V in perm
    requires a < MAXVPN && !Present(Entry(m.pt, root, a))
    modifies m
    ensures m.Inv()
    ensures ok ==> Step(old(m.S()), m.S(), root, a, a + 1) && Entry(m.pt, root, a) == Pte(perm, p)
                   && p in old(m.free) && p !in old(m.used) && m.used == old(m.used)[p := Frame(root, a)]
    ensures !ok ==> Quiet(old(m.S()), m.S(), root)
    ensures Enough(ok, 1 + Lacks(old(m.S()), root, a), old(m.free), m.free)
  {
    hide Lacks, Good, Step, Entry, IsRoot, Present;
    ghost var s := m.S();
    StepRefl(s, root);
    var mem := TakeFrame(m);
    p := mem;
    if mem == 0 {
      return false, p;
    }
    ghost var k := m.S();
    SameLacks(s, k, root, a);
    ok := MapFrame(m, root, a, mem, perm);
    TakenBack(s.used, mem, Frame(root, a));
    if ok {
      StepSides(s, k, m.S(), m.S(), root, a, a + 1);
    } else {
      StepSides(s, k, m.S(), m.S(), root, 0, 0);
    }
  }

  lemma GrowsMore(s0: Snap, s: Snap, s': Snap, root: nat, lo: nat, a: nat, hi: nat, p: nat, f: Rights)
    requires Vacant(s0, root, lo, hi) && lo <= a < hi && a < VPNS && Grows(s0, s, root, lo, a, f)
    requires Step(s, s', root, a, a + 1) && Entry(s'.pt, root, a) == Pte(FlagsAt(f, a), p)
    requires p !in s.used && s'.used == s.used[p := Frame(root, a)] && V in FlagsAt(f, a)
    ensures Grows(s0, s', root, lo, a + 1, f)
  {
    hide Entry, Table0;
    StepJoin(s0, s, s', root, lo, a, a, a + 1, lo, a + 1);
    forall v: nat | lo <= v < a
      ensures Entry(s'.pt, root, v) == Entry(s.pt, root, v)
    {
      StepSame(s, s', root, a, a + 1, v);
    }
    hide Step, Kept, Outside, PathsKept;
    GrowsUsed(s0.used, s.used, root, lo, a, hi, p);
    hide Frames;
  }

  lemma GrowsUsed(used0: map<nat, Use>, used: map<nat, Use>, root: nat, lo: nat, a: nat, hi: nat, p: nat)
    requires Frames(used0, root, lo, hi) == {} && lo <= a < hi
    requires used - Frames(used, root, lo, a) == used0 && p !in used
    ensures var used' := used[p := Frame(root, a)];
            used' - Frames(used', root, lo, a + 1) == used0
    ensures forall q | q in used :: used[q] != Frame(root, a)
  {
    forall q | q in used
      ensures used[q] != Frame(root, a)
    {
      assert q in Frames(used, root, lo, a) || q in used - Frames(used, root, lo, a);
      assert q !in Frames(used0, root, lo, hi);
    }
    var used' := used[p := Frame(root, a)];
    assert Frames(used', root, lo, a + 1) == Frames(used, root, lo, a) + {p};
    assert (used' - Frames(used', root, lo, a + 1)).Keys == (used - Frames(used, root, lo, a)).Keys;
  }

  // Unmapping what was just grown undoes it.
  lemma GrowsUndone(s0: Snap, s: Snap, k: Snap, s': Snap, root: nat, lo: nat, a: nat, hi: nat, f: Rights)
    requires Vacant(s0, root, lo, hi) && lo <= a <= hi <= VPNS && Grows(s0, s, root, lo, a, f)
    requires Quiet(s, k, root) && Unmaps(k, s', root, lo, a, true)
    ensures Quiet(s0, s', root)
  {
  }

  lemma GrowsBacked(s0: Snap, s: Snap, k: Snap, root: nat, lo: nat, a: nat, f: Rights)
    requires RightsOk(f, lo, a) && Grows(s0, s, root, lo, a, f) && Quiet(s, k, root) && a <= MAXVPN
    ensures IsRoot(k.loc, root) && Backed(k, root, lo, a)
  {
  }

  // The new pages have those rights and a frame each that was not in use before; all
  // other pages of all page tables translate as before.
  lemma GrowsMean(s0: Snap, s: Snap, root: nat, lo: nat, hi: nat, f: Rights)
    requires Grows(s0, s, root, lo, hi, f)
    ensures forall v: nat | lo <= v < hi :: Entry(s.pt, root, v).flags == FlagsAt(f, v)
    ensures forall v: nat | lo <= v < hi && V in FlagsAt(f, v) ::
              Entry(s.pt, root, v).ppn in s.used && s.used[Entry(s.pt, root, v).ppn] == Frame(root, v)
              && Entry(s.pt, root, v).ppn !in s0.used
    ensures forall r, v: nat | IsRoot(s0.loc, r) && v < VPNS && !(r == root && lo <= v < hi) ::
              Entry(s.pt, r, v) == Entry(s0.pt, r, v)
  {
    hide Entry, Table0, FlagsAt;
    forall v: nat | lo <= v < hi && V in FlagsAt(f, v)
      ensures Entry(s.pt, root, v).ppn in s.used && s.used[Entry(s.pt, root, v).ppn] == Frame(root, v)
      ensures Entry(s.pt, root, v).ppn !in s0.used
    {
      assert Owned(s, root, v);
      assert Entry(s.pt, root, v).ppn in Frames(s.used, root, lo, hi);
      assert Entry(s.pt, root, v).ppn !in (s.used - Frames(s.used, root, lo, hi)).Keys;
    }
  }

  // uvmdealloc.
  method UvmDealloc(m: Memory, root: nat, oldsz: nat, newsz: nat) returns (r: nat)
    requires m.Inv() && IsRoot(m.loc, root)
    requires Pages(oldsz) <= MAXVPN && Backed(m.S(), root, Pages(newsz), Pages(oldsz))
    modifies m
    ensures m.Inv() && r == (if newsz < oldsz then newsz else oldsz)
    ensures if newsz < oldsz then Unmaps(old(m.S()), m.S(), root, Pages(newsz), Pages(oldsz), true)
            else m.S() == old(m.S())
    ensures newsz < oldsz ==>
              forall v: nat | (newsz + 4095) / 4096 <= v < (oldsz + 4095) / 4096 ::
                Entry(m.pt, root, v) == Pte({}, 0) && Entry(old(m.pt), root, v).ppn in m.free
  {
    hide Good, Unmaps, Entry, IsRoot, AllOwned, Present, Backed;
    if newsz >= oldsz {
      return oldsz;
    }
    ghost var s := m.S();
    assert Pages(newsz) <= Pages(oldsz);
    var lo, hi := Pages(newsz), Pages(oldsz);
    UnmapsNone(s, root, lo, true);
    if lo < hi {
      DeallocRange(m, root, lo, hi);
    }
    BackedOwned(s, root, lo, hi);
    UnmapsMean(s, m.S(), root, lo, hi, hi, true);
    r := newsz;
  }

  lemma BackedOwned(s: Snap, root: nat, lo: nat, hi: nat)
    requires Backed(s, root, lo, hi) && hi <= MAXVPN
    ensures AllOwned(s, root, lo, hi)
  {
    hide Entry;
  }

  method DeallocRange(m: Memory, root: nat, lo: nat, hi: nat)
    requires m.Inv() && IsRoot(m.loc, root) && lo <= hi <= MAXVPN && Backed(m.S(), root, lo, hi)
    modifies m
    ensures m.Inv() && Unmaps(old(m.S()), m.S(), root, lo, hi, true)
  {
    ghost var s := m.S();
    assert AllOwned(s, root, lo, hi);
    hide Good, Unmaps, Entry, IsRoot, AllOwned, Owned, Present;
    var ok;
    ghost var stop;
    ok, stop := UnmapRange(m, root, lo, hi, true);
    assert ok;
  }

  lemma GrowsNext(s0: Snap, s: Snap, root: nat, lo: nat, a: nat, hi: nat, f: Rights)
    requires Grows(s0, s, root, lo, a, f) && Vacant(s0, root, lo, hi) && lo <= a < hi && a < MAXVPN
    ensures !Present(Entry(s.pt, root, a)) && IsRoot(s.loc, root)
  {
  }

  // The frames and tables for pages lo to hi.
  ghost function Needs(s: Snap, root: nat, lo: nat, hi: nat): int {
    if lo >= hi then 0 else hi - lo + RangeLacks(s, root, lo, hi)
  }

  lemma GrowsTables(s0: Snap, s: Snap, pages: set<nat>, root: nat, lo: nat, a: nat, f: Rights)
    requires Grows(s0, s, root, lo, a, f) && RightsOk(f, lo, a) && Good(s, pages)
    ensures PathsKept(s0, s) && IsRoot(s0.loc, root) && (lo < a ==> Table0(s.pt, root, a - 1) != 0)
  {
    if lo < a {
      assert Present(Entry(s.pt, root, a - 1));
      PresentHasTable(s, pages, root, a - 1);
    }
    hide Shape;
  }

  lemma NeedsNext(s0: Snap, s: Snap, pages: set<nat>, root: nat, lo: nat, a: nat, hi: nat, f: Rights)
    requires Grows(s0, s, root, lo, a, f) && RightsOk(f, lo, a) && Good(s, pages) && lo <= a < hi <= MAXVPN
    ensures 0 <= Needs(s0, root, lo, a) && 1 + Lacks(s, root, a) + Needs(s0, root, lo, a) <= Needs(s0, root, lo, a + 1)
    ensures Needs(s0, root, lo, a + 1) <= Needs(s0, root, lo, hi)
  {
    hide Grows, RightsOk, Good, PathsKept, IsRoot, Table0, Lacks, RangeLacks;
    GrowsTables(s0, s, pages, root, lo, a, f);
    LacksNext(s0, s, root, lo, a);
    RangeLacksNone(s0, root, lo);
    RangeLacksBound(s0, root, lo, a);
    RangeLacksMore(s0, root, lo, a + 1, hi);
  }

  lemma NeedsBound(s: Snap, root: nat, lo: nat, hi: nat)
    requires lo <= hi
    ensures 0 <= Needs(s, root, lo, hi) <= hi - lo + 2 * Blocks(lo, hi)
  {
  }

  // One turn of the loop of uvmalloc or uvmcopy; on failure the pages from lo on
  // are given back.
  method GrowNext(m: Memory, root: nat, a: nat, lo: nat, perm: set<Flag>, ghost f: Rights, ghost s0: Snap,
                  ghost hi: nat)
    returns (ok: bool)
    requires m.Inv() && Grows(s0, m.S(), root, lo, a, f) && Vacant(s0, root, lo, hi) && lo <= a < hi <= TOP
    requires RightsOk(f, lo, hi) && perm == FlagsAt(f, a)
    modifies m
    ensures m.Inv()
    ensures ok ==> Grows(s0, m.S(), root, lo, a + 1, f)
    ensures !ok ==> Quiet(s0, m.S(), root)
    ensures Enough(ok, Needs(s0, root, lo, a + 1) - Needs(s0, root, lo, a), old(m.free), m.free)
    ensures Needs(s0, root, lo, a + 1) <= Needs(s0, root, lo, hi)
  {
    hide Needs, Lacks, Good, Step, Entry, IsRoot, Present, Grows, Vacant, Backed, Quiet, FlagsAt;
    ghost var s := m.S();
    NeedsNext(s0, s, m.pages, root, lo, a, hi, f);
    GrowsNext(s0, s, root, lo, a, hi, f);
    ghost var p;
    ok, p := GrowPage(m, root, a, perm);
    if ok {
      GrowsMore(s0, s, m.S(), root, lo, a, hi, p, f);
    } else {
      ghost var k := m.S();
      GrowsBacked(s0, s, k, root, lo, a, f);
      DeallocRange(m, root, lo, a);
      GrowsUndone(s0, s, k, m.S(), root, lo, a, hi, f);
    }
  }

  lemma AllRights(lo: nat, hi: nat)
    ensures RightsOk(All, lo, hi) && forall v: nat :: FlagsAt(All, v) == USER
  {
  }

  method AllocRange(m: Memory, root: nat, lo: nat, hi: nat) returns (ok: bool)
    requires m.Inv() && IsRoot(m.loc, root) && lo <= hi <= TOP && Vacant(m.S(), root, lo, hi)
    modifies m
    ensures m.Inv()
    ensures ok ==> Grows(old(m.S()), m.S(), root, lo, hi, All)
    ensures !ok ==> Quiet(old(m.S()), m.S(), root)
    ensures Enough(ok, Needs(old(m.S()), root, lo, hi), old(m.free), m.free)
  {
    hide Needs, Good, Step, Entry, IsRoot, Grows, Vacant, Quiet, RightsOk, FlagsAt;
    ghost var s := m.S();
    GrowsNone(s, root, lo, All);
    AllRights(lo, hi);
    NeedsBound(s, root, lo, lo);
    var a := lo;
    while a != hi
      invariant m.Inv() && lo <= a <= hi && Grows(s, m.S(), root, lo, a, All)
      invariant |s.free| <= |m.free| + Needs(s, root, lo, a)
      decreases hi - a
    {
      ok := GrowNext(m, root, a, lo, USER, All, s, hi);
      if !ok {
        return;
      }
      a := a + 1;
    }
    ok := true;
  }

  // The frames behind the first n pages of the page table at root.
  ghost function FramesOf(s: Snap, root: nat, n: nat): set<nat> {
    if n == 0 then {} else FramesOf(s, root, n - 1) + {Entry(s.pt, root, n - 1).ppn}
  }

  // They are as many, since each belongs to its page.
  lemma {:induction false} FramesCount(s: Snap, root: nat, n: nat)
    requires Backed(s, root, 0, n)
    ensures |FramesOf(s, root, n)| == n
    ensures forall p | p in FramesOf(s, root, n) :: p in s.used && s.used[p].Frame? && s.used[p].vpn < n
  {
    hide Entry, Present;
    if n > 0 {
      FramesCount(s, root, n - 1);
      assert Owned(s, root, n - 1);
    }
  }

  // So memory is larger than any image in it.
  lemma ImageFits(s: Snap, pages: set<nat>, root: nat, n: nat)
    requires Good(s, pages) && IsRoot(s.loc, root) && Backed(s, root, 0, n)
    ensures n < |pages|
  {
    hide Shape, Entry, Backed;
    FramesCount(s, root, n);
    RootIsTable(s, pages, root);
    var ps := FramesOf(s, root, n);
    assert root !in ps;
    Fewer(ps + {root}, pages);
  }

  lemma RootIsTable(s: Snap, pages: set<nat>, root: nat)
    requires Good(s, pages) && IsRoot(s.loc, root)
    ensures root in s.pt
  {
    assert root in s.pt.Keys;
  }

  lemma GrowsAll(s0: Snap, s: Snap, root: nat, lo: nat, hi: nat)
    requires Grows(s0, s, root, lo, hi, All) && Backed(s0, root, 0, lo) && lo <= hi <= TOP
    ensures Backed(s, root, 0, hi) && IsRoot(s.loc, root)
  {
    hide Entry, Table0;
    forall v: nat | v < hi
      ensures Present(Entry(s.pt, root, v)) && R in Entry(s.pt, root, v).flags && Owned(s, root, v)
    {
      if v < lo {
        StepSame(s0, s, root, lo, hi, v);
        LowerOwned(s0, s, root, lo, hi, v);
      }
    }
  }

  lemma LowerOwned(s0: Snap, s: Snap, root: nat, lo: nat, hi: nat, v: nat)
    requires s.used - Frames(s.used, root, lo, hi) == s0.used && v < lo && Owned(s0, root, v)
    requires Entry(s.pt, root, v) == Entry(s0.pt, root, v)
    ensures Owned(s, root, v)
  {
    hide Entry;
    forall p | p in s.used && s.used[p] == Frame(root, v)
      ensures p in s0.used && s0.used[p] == Frame(root, v)
    {
      assert p !in Frames(s.used, root, lo, hi);
      assert p in s.used - Frames(s.used, root, lo, hi);
    }
  }

  function Min(a: nat, b: nat): nat { if a <= b then a else b }

  // The turn of the loop of uvmalloc at the trapframe's page, which is mapped:
  // without memory the pages from lo on are given back, else mappages panics.
  method AllocTop(m: Memory, root: nat, lo: nat, ghost s0: Snap) returns (panics: bool)
    requires m.Inv() && lo <= TOP && Grows(s0, m.S(), root, lo, TOP, All) && Vacant(s0, root, lo, TOP)
    requires Present(Entry(m.pt, root, TOP)) && IsRoot(m.loc, root)
    modifies m
    ensures m.Inv()
    ensures !panics ==> Quiet(s0, m.S(), root)
    ensures panics <==> old(m.free) != {}
    ensures Backed(s0, root, 0, lo) ==> TOP < |m.pages|
  {
    hide Lacks, Good, Step, Entry, Table0, IsRoot, Present, Grows, Vacant, Backed, Quiet, FlagsAt, RightsOk;
    ghost var s := m.S();
    AllRights(lo, TOP);
    if Backed(s0, root, 0, lo) {
      GrowsAll(s0, s, root, lo, TOP);
      ImageFits(s, m.pages, root, TOP);
    }
    var mem := TakeFrame(m);
    if mem == 0 {
      QuietRefl(s, root);
      GrowsBacked(s0, s, s, root, lo, TOP, All);
      DeallocRange(m, root, lo, TOP);
      GrowsUndone(s0, s, s, m.S(), root, lo, TOP, TOP, All);
      return false;
    }
    PresentLacks(m.S(), m.pages, root, TOP);
    var r := MapPage(m, root, TOP, mem, USER);
    assert r.Panic?;
    panics := true;
  }

  lemma QuietRefl(s: Snap, root: nat)
    ensures Quiet(s, s, root)
  {
  }

  lemma PresentLacks(s: Snap, pages: set<nat>, root: nat, v: nat)
    requires Good(s, pages) && Present(Entry(s.pt, root, v))
    ensures Lacks(s, root, v) == 0
  {
  }

  // uvmalloc; 0 stands for failure. It panics only if the image would reach the
  // trapframe.
  method UvmAlloc(m: Memory, root: nat, oldsz: nat, newsz: nat) returns (r: nat, panics: bool)
    requires m.Inv() && IsRoot(m.loc, root) && Pages(oldsz) <= TOP
    requires Vacant(m.S(), root, Pages(oldsz), Min(Pages(newsz), TOP))
    requires Pages(newsz) > TOP ==> Present(Entry(m.pt, root, TOP))
    modifies m
    ensures m.Inv() && (panics ==> Pages(newsz) > TOP)
    ensures panics && Backed(old(m.S()), root, 0, Pages(oldsz)) ==> TOP < |m.pages|
    ensures newsz < oldsz ==> r == oldsz && !panics && m.S() == old(m.S())
    ensures newsz >= oldsz && !panics ==>
              || (r == newsz && Pages(newsz) <= TOP && Grows(old(m.S()), m.S(), root, Pages(oldsz), Pages(newsz), All))
              || (r == 0 && Quiet(old(m.S()), m.S(), root))
    ensures newsz >= oldsz && !panics && r != 0 ==>
              forall v: nat | (oldsz + 4095) / 4096 <= v < (newsz + 4095) / 4096 ::
                Entry(m.pt, root, v).flags == {V, R, W, X, U} && Entry(m.pt, root, v).ppn !in old(m.used)
    ensures !panics ==>
              forall q, v: nat | IsRoot(old(m.loc), q) && v < VPNS
                                 && !(q == root && (oldsz + 4095) / 4096 <= v < (newsz + 4095) / 4096) ::
                Entry(m.pt, q, v) == Entry(old(m.pt), q, v)
    ensures newsz >= oldsz && !panics ==>
              Enough(r == newsz, Needs(old(m.S()), root, Pages(oldsz), Pages(newsz)), old(m.free), m.free)
  {
    hide Needs, Good, Grows, Vacant, Quiet, IsRoot, Pages, Present, Entry, Backed;
    ghost var s := m.S();
    if newsz < oldsz {
      return oldsz, false;
    }
    PagesOrder(oldsz, newsz);
    var lo, hi := Pages(oldsz), Min(Pages(newsz), TOP);
    NeedsMore(s, root, lo, hi, Pages(newsz));
    var ok := AllocRange(m, root, lo, hi);
    if !ok {
      QuietMeans(s, m.S(), root);
      return 0, false;
    }
    if Pages(newsz) > TOP {
      TopStays(s, m.S(), root, lo);
      panics := AllocTop(m, root, lo, s);
      if !panics {
        QuietMeans(s, m.S(), root);
      }
      return 0, panics;
    }
    AllocMeans(s, m.S(), root, oldsz, newsz);
    r, panics := newsz, false;
  }

  lemma AllocMeans(s: Snap, s': Snap, root: nat, oldsz: nat, newsz: nat)
    requires Grows(s, s', root, Pages(oldsz), Pages(newsz), All)
    ensures forall v: nat | (oldsz + 4095) / 4096 <= v < (newsz + 4095) / 4096 ::
              Entry(s'.pt, root, v).flags == {V, R, W, X, U} && Entry(s'.pt, root, v).ppn !in s.used
    ensures forall q, v: nat | IsRoot(s.loc, q) && v < VPNS
                               && !(q == root && (oldsz + 4095) / 4096 <= v < (newsz + 4095) / 4096) ::
              Entry(s'.pt, q, v) == Entry(s.pt, q, v)
  {
    GrowsMean(s, s', root, Pages(oldsz), Pages(newsz), All);
    hide Entry, Grows;
  }

  lemma QuietMeans(s: Snap, s': Snap, root: nat)
    requires Quiet(s, s', root)
    ensures forall q, v: nat | IsRoot(s.loc, q) && v < VPNS :: Entry(s'.pt, q, v) == Entry(s.pt, q, v)
  {
    hide Entry, Table0;
  }

  lemma NeedsMore(s: Snap, root: nat, lo: nat, hi: nat, hi': nat)
    requires lo <= hi <= hi'
    ensures Needs(s, root, lo, hi) + (hi' - hi) <= Needs(s, root, lo, hi')
  {
  }

  lemma TopStays(s: Snap, s': Snap, root: nat, lo: nat)
    requires Grows(s, s', root, lo, TOP, All) && Present(Entry(s.pt, root, TOP))
    ensures Present(Entry(s'.pt, root, TOP)) && IsRoot(s'.loc, root)
  {
  }

  lemma PagesOrder(a: nat, b: nat)
    requires a <= b
    ensures Pages(a) <= Pages(b)
  {
  }

  /* Copying. */

  // The entry for page v, read through walk.
  method ReadPte(m: Memory, root: nat, v: nat) returns (ok: bool, e: Pte)
    requires m.Inv() && IsRoot(m.loc, root)
    modifies m
    ensures m.Inv() && m.S() == old(m.S())
    ensures ok ==> v < MAXVPN && e == Entry(m.pt, root, v)
    ensures !ok ==> Missing(m.S(), root, v)
  {
    hide Good, Step, Entry, Table0, IsRoot, Missing, OnPath, Px;
    ghost var s := m.S();
    var slot := m.Walk(root, Addr(v), false);
    if !slot.At? {
      NoSlot(s, m.pages, root, v, slot);
      return false, ZERO_PTE;
    }
    m.SlotEntry(root, slot.table, v, ZERO_PTE);
    return true, m.pt[slot.table][slot.index];
  }

  lemma NoSlot(s: Snap, pages: set<nat>, root: nat, v: nat, r: Slot)
    requires Good(s, pages) && !r.At?
    requires r.Panicked? <==> Addr(v) >= MAXVA
    requires r.NoTable? ==> Table0(s.pt, root, PageOf(Addr(v))) == 0
    ensures Missing(s, root, v)
  {
  }

  lemma LikeRights(s0: Snap, u: nat, hi: nat)
    requires Backed(s0, u, 0, hi)
    ensures RightsOk(Like(s0.pt, u), 0, hi)
  {
  }

  lemma CopySource(s0: Snap, s: Snap, u: nat, c: nat, a: nat, hi: nat, f: Rights)
    requires IsRoot(s0.loc, u) && u != c && Backed(s0, u, 0, hi) && a < hi <= TOP && Grows(s0, s, c, 0, a, f)
    ensures IsRoot(s.loc, u) && !Missing(s, u, a)
    ensures Entry(s.pt, u, a).flags == FlagsAt(Like(s0.pt, u), a)
  {
  }

  // uvmcopy. All of the parent's pages are there, so it does not panic.
  method UvmCopy(m: Memory, u: nat, c: nat, sz: nat) returns (ok: bool)
    requires m.Inv() && IsRoot(m.loc, u) && IsRoot(m.loc, c) && u != c && Pages(sz) <= TOP
    requires Backed(m.S(), u, 0, Pages(sz)) && Vacant(m.S(), c, 0, Pages(sz))
    modifies m
    ensures m.Inv()
    ensures ok ==> Grows(old(m.S()), m.S(), c, 0, Pages(sz), Like(old(m.pt), u))
    ensures ok ==> forall v: nat | v < Pages(sz) ::
                     Entry(m.pt, c, v).flags == Entry(old(m.pt), u, v).flags
                     && Entry(m.pt, c, v).ppn !in old(m.used)
    ensures !ok ==> Quiet(old(m.S()), m.S(), c)
    ensures Enough(ok, Needs(old(m.S()), c, 0, Pages(sz)), old(m.free), m.free)
  {
    hide Needs, Good, Step, Entry, IsRoot, Grows, Vacant, Backed, Quiet, RightsOk, FlagsAt, Pages, Missing;
    ghost var s := m.S();
    ghost var f := Like(s.pt, u);
    GrowsNone(s, c, 0, f);
    LikeRights(s, u, Pages(sz));
    NeedsBound(s, c, 0, 0);
    var a, n := 0, Pages(sz);
    while a != n
      invariant m.Inv() && 0 <= a <= n && Grows(s, m.S(), c, 0, a, f)
      invariant |s.free| <= |m.free| + Needs(s, c, 0, a)
      decreases n - a
    {
      CopySource(s, m.S(), u, c, a, n, f);
      var there, e := ReadPte(m, u, a);
      assert there;
      ok := GrowNext(m, c, a, 0, e.flags, f, s, n);
      if !ok {
        return;
      }
      a := a + 1;
    }
    CopyMeans(s, m.S(), u, c, Pages(sz));
    ok := true;
  }

  lemma CopyMeans(s: Snap, s': Snap, u: nat, c: nat, n: nat)
    requires Grows(s, s', c, 0, n, Like(s.pt, u)) && Backed(s, u, 0, n)
    ensures forall v: nat | v < n ::
              Entry(s'.pt, c, v).flags == Entry(s.pt, u, v).flags && Entry(s'.pt, c, v).ppn !in s.used
  {
    GrowsMean(s, s', c, 0, n, Like(s.pt, u));
    hide Entry, Grows, Owned;
  }
}
