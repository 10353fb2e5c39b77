/** The per-CPU page allocator, each operation run alone. A page is named by its
    address; address 0 is the null pointer. */
module Kmem {
  import opened Residues
  import opened Rows

  const PGSIZE := 4096

  function PgRoundUp(a: nat): nat { (a + PGSIZE - 1) / PGSIZE * PGSIZE }

  type FreeLists = seq<seq<nat>>

  // The next pointers kept in the pages themselves string `list` after `head`.
  ghost predicate Chain(next: map<nat, nat>, head: nat, list: seq<nat>) {
    && head == (if list == [] then 0 else list[0])
    && (forall p | p in list :: p != 0 && p in next)
    && (forall i, j | 0 <= i < j < |list| && j == i + 1 :: next[list[i]] == list[j])
    && (list != [] ==> next[list[|list| - 1]] == 0)
  }

  // All pages on the lists from CPU k on.
  function PagesFrom(lists: FreeLists, k: nat): (s: set<nat>)
    requires k <= |lists|
    ensures forall p :: p in s <==> exists j | k <= j < |lists| :: p in lists[j]
    decreases |lists| - k
  {
    if k == |lists| then {} else (set p | p in lists[k]) + PagesFrom(lists, k + 1)
  }

  function Pages(lists: FreeLists): set<nat> { PagesFrom(lists, 0) }

  // The i-th list a CPU looks at.
  function Target(id: nat, i: nat, n: nat): (k: nat)
    requires n > 0
    ensures k < n
  {
    (id + i) % n
  }

  // The first of the lists i, i+1, ... in the order of `id` that has a page.
  function FirstNonEmpty(lists: FreeLists, id: nat, i: nat): (j: nat)
    requires i <= |lists| && |lists| > 0
    ensures i <= j <= |lists|
    ensures j < |lists| ==> lists[Target(id, j, |lists|)] != []
    decreases |lists| - i
  {
    if i == |lists| || lists[Target(id, i, |lists|)] != [] then i else FirstNonEmpty(lists, id, i + 1)
  }

  function Popped(lists: FreeLists, k: nat): FreeLists
    requires k < |lists| && lists[k] != []
  {
    lists[k := lists[k][1..]]
  }

  function Pushed(lists: FreeLists, k: nat, pa: nat): FreeLists
    requires k < |lists|
  {
    lists[k := [pa] + lists[k]]
  }

  // kalloc on CPU id: the page returned, 0 for none, and the lists after.
  function AllocSpec(lists: FreeLists, id: nat): (nat, FreeLists)
    requires id < |lists|
  {
    var j := FirstNonEmpty(lists, id, 0);
    if j == |lists| then (0, lists)
    else
      var k := Target(id, j, |lists|);
      (lists[k][0], Popped(lists, k))
  }

  /* The lists as one set of free pages. */

  ghost predicate Lawful(lists: FreeLists) {
    NoDup(lists) && 0 !in Pages(lists)
  }

  lemma TargetValue(id: nat, i: nat, n: nat)
    requires id < n && i < n
    ensures Target(id, i, n) == if id + i < n then id + i else id + i - n
  {
  }

  // A CPU looks at every list once.
  lemma TargetsReachAll(id: nat, k: nat, n: nat) returns (i: nat)
    requires id < n && k < n
    ensures i < n && Target(id, i, n) == k
    ensures forall j | 0 <= j < n && Target(id, j, n) == k :: j == i
  {
    i := if k >= id then k - id else k - id + n;
    TargetValue(id, i, n);
    forall j: nat | j < n && Target(id, j, n) == k
      ensures j == i
    {
      TargetValue(id, j, n);
    }
  }

  lemma {:induction false} SkippedEmpty(lists: FreeLists, id: nat, i: nat, j: nat)
    requires id < |lists| && i <= |lists| && i <= j < FirstNonEmpty(lists, id, i)
    ensures lists[Target(id, j, |lists|)] == []
    decreases j - i
  {
    if i < j {
      SkippedEmpty(lists, id, i + 1, j);
    }
  }

  // The page is the first of the first list that has one, in the order from the
  // CPU's own list on and round; nothing else moves. i is how many lists are passed.
  lemma AllocMeans(lists: FreeLists, id: nat) returns (i: nat)
    requires id < |lists|
    ensures i <= |lists|
    ensures forall k | 0 <= k < |lists| && (if k < id then k + |lists| - id else k - id) < i :: lists[k] == []
    ensures i == |lists| ==> AllocSpec(lists, id) == (0, lists)
    ensures i < |lists| ==> var k := if id + i < |lists| then id + i else id + i - |lists|;
                            lists[k] != [] && AllocSpec(lists, id) == (lists[k][0], lists[k := lists[k][1..]])
  {
    i := FirstNonEmpty(lists, id, 0);
    forall k: nat | k < |lists| && (if k < id then k + |lists| - id else k - id) < i
      ensures lists[k] == []
    {
      var j := if k < id then k + |lists| - id else k - id;
      TargetValue(id, j, |lists|);
      SkippedEmpty(lists, id, 0, j);
    }
    if i < |lists| {
      TargetValue(id, i, |lists|);
    }
  }

  lemma AllocZeroIffEmpty(lists: FreeLists, id: nat)
    requires id < |lists| && Lawful(lists)
    ensures AllocSpec(lists, id).0 == 0 <==> Pages(lists) == {}
  {
    var n, j := |lists|, FirstNonEmpty(lists, id, 0);
    if j < n {
      var k := Target(id, j, n);
      assert lists[k][0] in lists[k];
      assert lists[k][0] in Pages(lists);
    } else {
      forall k | 0 <= k < n
        ensures lists[k] == []
      {
        var i := TargetsReachAll(id, k, n);
        SkippedEmpty(lists, id, 0, i);
      }
    }
  }

  // kalloc refines taking any element of the set of free pages.
  lemma AllocTakesOne(lists: FreeLists, id: nat)
    requires id < |lists| && Lawful(lists)
    ensures var (r, lists') := AllocSpec(lists, id);
            && |lists'| == |lists| && Lawful(lists')
            && (r != 0 ==> r in Pages(lists))
            && Pages(lists') == Pages(lists) - {r}
  {
    var n, j := |lists|, FirstNonEmpty(lists, id, 0);
    if j < n {
      PopTakesOne(lists, Target(id, j, n));
    }
  }

  lemma PopTakesOne(lists: FreeLists, k: nat)
    requires Lawful(lists) && k < |lists| && lists[k] != []
    ensures Lawful(Popped(lists, k)) && Pages(Popped(lists, k)) == Pages(lists) - {lists[k][0]}
    ensures lists[k][0] in Pages(lists)
  {
    var p, rest, lists' := lists[k][0], lists[k][1..], Popped(lists, k);
    assert lists[k] == [p] + rest;
    assert p in lists[k];
    forall q
      ensures q in Pages(lists') <==> q in Pages(lists) && q != p
    {
      if q in Pages(lists') {
        var j :| 0 <= j < |lists'| && q in lists'[j];
        assert q in lists[j];
        assert j < k ==> Disjoint(lists[j], lists[k]);
        assert k < j ==> Disjoint(lists[k], lists[j]);
      }
      if q in Pages(lists) && q != p {
        var j :| 0 <= j < |lists| && q in lists[j];
        assert q in lists'[j];
      }
    }
    forall j, j' | 0 <= j < j' < |lists'|
      ensures Disjoint(lists'[j], lists'[j'])
    {
      assert Disjoint(lists[j], lists[j']);
    }
  }

  // kfree refines adding the page.
  lemma FreeAddsOne(lists: FreeLists, k: nat, pa: nat)
    requires Lawful(lists) && k < |lists| && pa != 0 && pa !in Pages(lists)
    ensures Lawful(Pushed(lists, k, pa)) && Pages(Pushed(lists, k, pa)) == Pages(lists) + {pa}
  {
    var lists' := Pushed(lists, k, pa);
    forall q
      ensures q in Pages(lists') <==> q in Pages(lists) || q == pa
    {
      if q in Pages(lists') {
        var j :| 0 <= j < |lists'| && q in lists'[j];
        assert q == pa || q in lists[j];
      }
      if q in Pages(lists) {
        var j :| 0 <= j < |lists| && q in lists[j];
        assert q in lists'[j];
      }
      assert pa in lists'[k];
    }
    forall j, j' | 0 <= j < j' < |lists'|
      ensures Disjoint(lists'[j], lists'[j'])
    {
      assert Disjoint(lists[j], lists[j']);
    }
  }

  lemma ChainPush(next: map<nat, nat>, head: nat, list: seq<nat>, pa: nat)
    requires Chain(next, head, list) && pa != 0 && pa !in list
    ensures Chain(next[pa := head], pa, [pa] + list)
  {
  }

  lemma ChainPop(next: map<nat, nat>, head: nat, list: seq<nat>)
    requires Chain(next, head, list) && head != 0
    ensures list != [] && head == list[0] && head in next && Chain(next, next[head], list[1..])
  {
  }

  lemma ChainFrame(next: map<nat, nat>, head: nat, list: seq<nat>, pa: nat, v: nat)
    requires Chain(next, head, list) && pa !in list
    ensures Chain(next[pa := v], head, list)
  {
  }

  datatype Outcome = Done | Panicked

  class Kmem {
    const ncpu: nat
    const end: nat       // first address after the kernel
    const phystop: nat
    const freelist: array<nat>
    var next: map<nat, nat>   // where each free page points
    ghost var lists: FreeLists

    ghost predicate Valid()
      reads this, freelist
    {
      && 0 < end && freelist.Length == ncpu == |lists|
      && Lawful(lists)
      && forall k | 0 <= k < ncpu :: Chain(next, freelist[k], lists[k])
    }

    // The statically zeroed kmems.
    constructor (ncpu: nat, end: nat, phystop: nat)
      requires 0 < end
      ensures Valid() && fresh(freelist)
      ensures this.ncpu == ncpu && this.end == end && this.phystop == phystop
      ensures lists == seq(ncpu, _ => [])
    {
      this.ncpu, this.end, this.phystop := ncpu, end, phystop;
      freelist := new nat[ncpu](_ => 0);
      next := map[];
      lists := seq(ncpu, _ => []);
    }

    predicate Bad(pa: nat) {
      pa % PGSIZE != 0 || pa < end || pa >= phystop
    }

    // The caller owns pa: it is not free already.
    method Kfree(id: nat, pa: nat) returns (r: Outcome)
      requires Valid() && id < ncpu && pa !in Pages(lists)
      modifies this`next, this`lists, freelist
      ensures Valid()
      ensures r.Panicked? <==> pa % PGSIZE != 0 || pa < end || pa >= phystop
      ensures lists == if r.Panicked? then old(lists) else Pushed(old(lists), id, pa)
      ensures r.Done? ==> |lists| == |old(lists)| && lists[id] == [pa] + old(lists)[id]
                          && forall k | 0 <= k < ncpu && k != id :: lists[k] == old(lists)[k]
    {
      if pa % PGSIZE != 0 || pa < end || pa >= phystop {
        return Panicked;
      }
      FreeAddsOne(lists, id, pa);
      forall k | 0 <= k < ncpu
        ensures Chain(next[pa := freelist[id]], if k == id then pa else freelist[k], Pushed(lists, id, pa)[k])
      {
        assert pa !in lists[k];
        ChainPush(next, freelist[k], lists[k], pa);
        ChainFrame(next, freelist[k], lists[k], pa, freelist[id]);
      }
      next := next[pa := freelist[id]];
      freelist[id] := pa;
      lists := Pushed(lists, id, pa);
      r := Done;
    }

    // Takes the first page of list k, if there is one.
    method Take(k: nat) returns (r: nat)
      requires Valid() && k < ncpu
      modifies this`lists, freelist
      ensures Valid()
      ensures r == (if old(lists[k]) == [] then 0 else old(lists[k])[0])
      ensures r == 0 <==> old(lists[k]) == []
      ensures lists == if r == 0 then old(lists) else Popped(old(lists), k)
      ensures r != 0 ==> |lists| == |old(lists)| && old(lists)[k] == [r] + lists[k]
                         && forall j | 0 <= j < ncpu && j != k :: lists[j] == old(lists)[j]
    {
      r := freelist[k];
      if r != 0 {
        ChainPop(next, r, lists[k]);
        PopTakesOne(lists, k);
        freelist[k] := next[r];
        lists := Popped(lists, k);
      }
    }

    method Kalloc(id: nat) returns (r: nat)
      requires Valid() && id < ncpu
      modifies this`lists, freelist
      ensures Valid() && (r, lists) == AllocSpec(old(lists), id)
    {
      TargetValue(id, 0, ncpu);
      r := Take(id);
      if r == 0 {
        var i := 1;
        while i < ncpu
          invariant 1 <= i <= ncpu && r == 0
          invariant Valid() && lists == old(lists)
          invariant FirstNonEmpty(lists, id, 0) == FirstNonEmpty(lists, id, i)
        {
          var k := Target(id, i, ncpu);
          r := Take(k);
          if r != 0 {
            return;
          }
          i := i + 1;
        }
      }
    }

    // All pages that lie wholly between the addresses.
    ghost function Between(lo: nat, hi: nat): (s: set<nat>)
      ensures forall p :: p in s <==> lo <= p && p + PGSIZE <= hi && p % PGSIZE == 0
    {
      set p | 0 <= p < hi && lo <= p && p + PGSIZE <= hi && p % PGSIZE == 0
    }

    method Freerange(id: nat, start: nat, stop: nat) returns (r: Outcome)
      requires Valid() && id < ncpu && Pages(lists) !! Between(start, stop)
      modifies this`next, this`lists, freelist
      ensures Valid()
      ensures end <= start && stop <= phystop ==> r.Done?
      ensures r.Done? ==> Pages(lists) == old(Pages(lists)) + Between(start, stop)
      ensures forall k | 0 <= k < ncpu && k != id :: lists[k] == old(lists[k])
    {
      var p := PgRoundUp(start);
      r := Done;
      while p + PGSIZE <= stop
        invariant Valid() && r.Done? && p % PGSIZE == 0 && start <= p
        invariant Pages(lists) == old(Pages(lists)) + (Between(start, stop) - Between(p, stop))
        invariant forall k | 0 <= k < ncpu && k != id :: lists[k] == old(lists[k])
      {
        if !Bad(p) {
          FreeAddsOne(lists, id, p);
        }
        r := Kfree(id, p);
        if r.Panicked? {
          return;
        }
        p := p + PGSIZE;
      }
    }

    // At boot, on the CPU that runs kinit, every page from end to PHYSTOP.
    method Kinit(id: nat) returns (r: Outcome)
      requires Valid() && id < ncpu && Pages(lists) == {}
      modifies this`next, this`lists, freelist
      ensures Valid() && r.Done?
      ensures Pages(lists) == Between(end, phystop)
      ensures forall k | 0 <= k < ncpu && k != id :: lists[k] == old(lists[k])
    {
      r := Freerange(id, end, phystop);
    }
  }
}
