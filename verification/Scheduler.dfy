/** Which kernel page table is in each CPU's satp register, and what it mirrors: the
    scheduler, and the kernel code that creates, resizes and frees processes, as a
    state machine over single steps of any number of CPUs. */
module Scheduler {
  import P = Processes
  import M = MirrorRuns

  datatype Option<T> = None | Some(value: T)

  // Where a CPU is: before scheduler() is entered, in its loop, or in process p.
  datatype Pc =
    | Boot
    | Idle              // looking for a process
    | Locked(p: nat)    // it has p's lock and has not yet looked at p's state
    | Picked(p: nat)    // it has made p RUNNING
    | Chosen(p: nat)    // p is its current process
    | Loaded(p: nat)    // satp holds p's kernel page table
    | Running(p: nat)   // p runs on it
    | Leaving(p: nat)   // p has set its own state and is about to go back
    | Back(p: nat)      // the scheduler runs again
    | Restored(p: nat)  // satp holds the global page table
    | Cleared(p: nat)   // it has no current process

  // What kernel code that creates or frees a process q has done so far.
  datatype Job =
    | NoJob
    | Forking(q: nat)     // fork: allocproc
    | Announced(q: nat)   // fork: the child made RUNNABLE
    | Copied(q: nat)      // fork: vmcopypage
    | Starting(q: nat)    // userinit: allocproc
    | Filled(q: nat)      // userinit: vmcopypage
    | Started(q: nat)     // userinit: the process made RUNNABLE
    | Freeing(q: nat)     // freeproc: the tables are freed, the state is not yet UNUSED

  // satp holds a kernel page table; 0 stands for the global one.
  datatype Cpu = Cpu(pc: Pc, job: Job, current: Option<nat>, satp: nat)

  // kpt is k_pagetable, 0 for none. mirror: the image that kpt mirrors and the pages of
  // it, once vmcopypage has filled it. pending: what these will be when the process's own
  // growproc or exec, which has changed its user memory and not yet kpt, is through.
  datatype Process = Process(state: P.State, kpt: nat, mirror: Option<M.Size>, pending: Option<M.Size>)

  // live: the kernel page tables made and not yet freed.
  datatype System = System(config: P.Config, cpus: seq<Cpu>, procs: seq<Process>, locks: seq<Option<nat>>,
                           live: set<nat>)

  datatype Event =
    | Enter(c: nat)
    | Acquire(c: nat, p: nat)
    | Skip(c: nat)
    | Pick(c: nat)
    | SetCurrent(c: nat)
    | LoadTable(c: nat)
    | SwitchTo(c: nat)
    | Lock(c: nat, q: nat)
    | Unlock(c: nat, q: nat)
    | Wake(c: nat, q: nat)
    | Resize(c: nat, e: M.Event)  // growproc or exec changes the user memory
    | Mirror(c: nat)              // ... and has changed the kernel page table too
    | SetOwnState(c: nat, state: P.State)
    | SwitchBack(c: nat)
    | RestoreTable(c: nat)
    | ClearCurrent(c: nat)
    | Release(c: nat)
    | Alloc(c: nat, q: nat, t: nat)
    | AllocFailed(c: nat)
    | Announce(c: nat)
    | CopyPages(c: nat, sz: nat)
    | Reap(c: nat, q: nat)
    | MarkUnused(c: nat)
    | EndJob(c: nat)

  // Kernel code runs before the scheduler and in processes.
  predicate InKernel(pc: Pc) { pc.Boot? || pc.Running? }

  predicate Holds(s: System, c: nat, q: nat) {
    q < |s.procs| && q < |s.locks| && s.locks[q] == Some(c)
  }

  predicate HoldsOnly(s: System, c: nat, p: nat) {
    forall q | 0 <= q < |s.locks| :: s.locks[q] == Some(c) ==> q == p
  }

  // The new process has the size of the forking one, or one page.
  predicate NewSize(s: System, u: Cpu, sz: nat) {
    if u.job.Starting? then sz == 4096
    else u.pc.Running? && u.pc.p < |s.procs| && s.procs[u.pc.p].mirror.Some? && s.procs[u.pc.p].mirror.value.sz == sz
  }

  // growproc or exec gets past its tests, and its pages are there to be unmapped.
  ghost predicate Accepts(config: P.Config, x: Process, e: M.Event) {
    x.mirror.Some? && x.pending.None? && M.EventOk(e) && M.Apply(config, x.mirror.value, e).Now?
  }

  // What the program may do next.
  ghost predicate Enabled(s: System, e: Event) {
    && e.c < |s.cpus| && |s.locks| == |s.procs|
    && var u := s.cpus[e.c];
       match e
       case Enter(c) => u.pc.Boot? && u.job.NoJob? && forall q | 0 <= q < |s.locks| :: s.locks[q] != Some(c)
       case Acquire(c, p) => u.pc.Idle? && p < |s.procs| && s.locks[p].None?
       case Skip(c) => u.pc.Locked? && u.pc.p < |s.procs| && !s.procs[u.pc.p].state.RUNNABLE?
       case Pick(c) => u.pc.Locked? && u.pc.p < |s.procs| && s.procs[u.pc.p].state.RUNNABLE?
       case SetCurrent(c) => u.pc.Picked?
       case LoadTable(c) => u.pc.Chosen? && u.pc.p < |s.procs|
       case SwitchTo(c) => u.pc.Loaded?
       case Lock(c, q) => InKernel(u.pc) && u.job.NoJob? && q < |s.procs| && s.locks[q].None?
       case Unlock(c, q) => (InKernel(u.pc) || (u.pc.Leaving? && q != u.pc.p)) && u.job.NoJob? && Holds(s, c, q)
       case Wake(c, q) => InKernel(u.pc) && u.job.NoJob? && Holds(s, c, q) && s.procs[q].state.SLEEPING?
       case Resize(c, x) => u.pc.Running? && u.job.NoJob? && u.pc.p < |s.procs| && Accepts(s.config, s.procs[u.pc.p], x)
       case Mirror(c) => u.pc.Running? && u.pc.p < |s.procs| && s.procs[u.pc.p].pending.Some?
       // yield, sleep and exit; a resize is at most interrupted by a yield
       case SetOwnState(c, st) =>
         u.pc.Running? && u.job.NoJob? && Holds(s, c, u.pc.p)
         && (st.RUNNABLE? || (s.procs[u.pc.p].pending.None? && (st.SLEEPING? || st.ZOMBIE?)))
       // sched panics if another lock than p's is held
       case SwitchBack(c) => u.pc.Leaving? && HoldsOnly(s, c, u.pc.p)
       case RestoreTable(c) => u.pc.Back?
       case ClearCurrent(c) => u.pc.Restored?
       case Release(c) => u.pc.Cleared? && u.pc.p < |s.procs|
       case Alloc(c, q, t) =>
         InKernel(u.pc) && u.job.NoJob? && Holds(s, c, q) && s.procs[q].state.UNUSED? && t != 0 && t !in s.live
       case AllocFailed(c) => u.job.Forking? && u.job.q < |s.procs|
       case Announce(c) => (u.job.Forking? || u.job.Filled?) && u.job.q < |s.procs|
       case CopyPages(c, sz) => (u.job.Announced? || u.job.Starting?) && u.job.q < |s.procs| && NewSize(s, u, sz)
       // wait, for a child that has ended
       case Reap(c, q) => InKernel(u.pc) && u.job.NoJob? && Holds(s, c, q) && s.procs[q].state.ZOMBIE?
       case MarkUnused(c) => u.job.Freeing? && u.job.q < |s.procs|
       case EndJob(c) => (u.job.Copied? || u.job.Started?) && u.job.q < |s.procs|
  }

  function SetCpu(s: System, c: nat, u: Cpu): System
    requires c < |s.cpus|
  {
    s.(cpus := s.cpus[c := u])
  }

  function SetProc(s: System, p: nat, x: Process): System
    requires p < |s.procs|
  {
    s.(procs := s.procs[p := x])
  }

  function SetLock(s: System, p: nat, o: Option<nat>): System
    requires p < |s.locks|
  {
    s.(locks := s.locks[p := o])
  }

  ghost function Apply(s: System, e: Event): System
    requires Enabled(s, e)
  {
    var c, u := e.c, s.cpus[e.c];
    match e
    case Enter(_) => SetCpu(s, c, u.(pc := Idle))
    case Acquire(_, p) => SetLock(SetCpu(s, c, u.(pc := Locked(p))), p, Some(c))
    case Skip(_) => SetLock(SetCpu(s, c, u.(pc := Idle)), u.pc.p, None)
    case Pick(_) => SetProc(SetCpu(s, c, u.(pc := Picked(u.pc.p))), u.pc.p, s.procs[u.pc.p].(state := P.RUNNING))
    case SetCurrent(_) => SetCpu(s, c, u.(pc := Chosen(u.pc.p), current := Some(u.pc.p)))
    case LoadTable(_) => SetCpu(s, c, u.(pc := Loaded(u.pc.p), satp := s.procs[u.pc.p].kpt))
    case SwitchTo(_) => SetCpu(s, c, u.(pc := Running(u.pc.p)))
    case Lock(_, q) => SetLock(s, q, Some(c))
    case Unlock(_, q) => SetLock(s, q, None)
    case Wake(_, q) => SetProc(s, q, s.procs[q].(state := P.RUNNABLE))
    case Resize(_, x) =>
      SetProc(s, u.pc.p, s.procs[u.pc.p].(pending := Some(M.Apply(s.config, s.procs[u.pc.p].mirror.value, x).s)))
    case Mirror(_) => SetProc(s, u.pc.p, s.procs[u.pc.p].(mirror := s.procs[u.pc.p].pending, pending := None))
    case SetOwnState(_, st) => SetProc(SetCpu(s, c, u.(pc := Leaving(u.pc.p))), u.pc.p, s.procs[u.pc.p].(state := st))
    case SwitchBack(_) => SetCpu(s, c, u.(pc := Back(u.pc.p)))
    case RestoreTable(_) => SetCpu(s, c, u.(pc := Restored(u.pc.p), satp := 0))
    case ClearCurrent(_) => SetCpu(s, c, u.(pc := Cleared(u.pc.p), current := None))
    case Release(_) => SetLock(SetCpu(s, c, u.(pc := Idle)), u.pc.p, None)
    case Alloc(_, q, t) =>
      var s' := SetCpu(s, c, u.(job := if u.pc.Boot? then Starting(q) else Forking(q)));
      SetProc(s', q, s.procs[q].(kpt := t, mirror := None, pending := None)).(live := s.live + {t})
    case AllocFailed(_) =>
      var s' := SetCpu(s, c, u.(job := Freeing(u.job.q)));
      SetProc(s', u.job.q, s.procs[u.job.q].(kpt := 0)).(live := s.live - {s.procs[u.job.q].kpt})
    case Announce(_) =>
      var s' := SetCpu(s, c, u.(job := if u.job.Forking? then Announced(u.job.q) else Started(u.job.q)));
      SetProc(s', u.job.q, s.procs[u.job.q].(state := P.RUNNABLE))
    case CopyPages(_, sz) =>
      var s' := SetCpu(s, c, u.(job := if u.job.Announced? then Copied(u.job.q) else Filled(u.job.q)));
      SetProc(s', u.job.q, s.procs[u.job.q].(mirror := Some(M.Whole(sz))))
    case Reap(_, q) =>
      SetProc(SetCpu(s, c, u.(job := Freeing(q))), q, s.procs[q].(kpt := 0)).(live := s.live - {s.procs[q].kpt})
    case MarkUnused(_) => SetProc(SetCpu(s, c, u.(job := NoJob)), u.job.q, s.procs[u.job.q].(state := P.UNUSED))
    case EndJob(_) => SetLock(SetCpu(s, c, u.(job := NoJob)), u.job.q, None)
  }

  // Every CPU in Boot, every slot unused.
  function Start(config: P.Config, ncpu: nat, nproc: nat): System {
    System(config, seq(ncpu, _ => Cpu(Boot, NoJob, None, 0)), seq(nproc, _ => Process(P.UNUSED, 0, None, None)),
           seq(nproc, _ => None), {})
  }

  /* The invariant. */

  // A CPU between picking p and restoring the global table.
  predicate On(pc: Pc, p: nat) {
    (pc.Picked? || pc.Chosen? || pc.Loaded? || pc.Running? || pc.Leaving? || pc.Back?) && pc.p == p
  }

  // The process's lock is held across the switch, and satp follows the process.
  predicate CpuOk(s: System, c: nat)
    requires c < |s.cpus|
  {
    var u := s.cpus[c];
    && (u.pc.Boot? || u.pc.Idle? ==> u.current.None? && u.satp == 0)
    && (!u.pc.Boot? && !u.pc.Idle? ==> u.pc.p < |s.procs|)
    && (!u.pc.Boot? && !u.pc.Idle? && !u.pc.Running? ==> Holds(s, c, u.pc.p))
    && (!InKernel(u.pc) ==> u.job.NoJob?)
    && (u.pc.Locked? || u.pc.Picked? || u.pc.Cleared? ==> u.current.None?)
    && (u.pc.Chosen? || u.pc.Loaded? || u.pc.Running? || u.pc.Leaving? || u.pc.Back? || u.pc.Restored? ==>
          u.current == Some(u.pc.p))
    && (u.pc.Locked? || u.pc.Picked? || u.pc.Chosen? || u.pc.Restored? || u.pc.Cleared? ==> u.satp == 0)
    && (u.pc.Loaded? || u.pc.Running? || u.pc.Leaving? || u.pc.Back? ==> u.satp == s.procs[u.pc.p].kpt && u.satp != 0)
    && (u.pc.Picked? || u.pc.Chosen? || u.pc.Loaded? || u.pc.Running? ==> s.procs[u.pc.p].state.RUNNING?)
    && (u.pc.Leaving? || u.pc.Back? ==>
          s.procs[u.pc.p].state.RUNNABLE? || s.procs[u.pc.p].state.SLEEPING? || s.procs[u.pc.p].state.ZOMBIE?)
  }

  predicate JobOk(s: System, c: nat)
    requires c < |s.cpus|
  {
    var j := s.cpus[c].job;
    !j.NoJob? ==>
      && Holds(s, c, j.q)
      && var x := s.procs[j.q];
         && (j.Forking? || j.Starting? || j.Filled? ==> x.state.UNUSED? && x.kpt != 0)
         && (j.Announced? || j.Copied? || j.Started? ==> x.state.RUNNABLE? && x.kpt != 0)
         && (j.Copied? || j.Filled? || j.Started? ==> x.mirror.Some?) && (j.Forking? ==> x.mirror.None?)
         && (j.Freeing? ==> x.kpt == 0 && (x.state.UNUSED? || x.state.ZOMBIE?))
  }

  // The job that the holder of p's lock has on p.
  function JobOn(s: System, p: nat): Job
    requires p < |s.locks|
  {
    if s.locks[p].Some? && s.locks[p].value < |s.cpus| && !s.cpus[s.locks[p].value].job.NoJob?
       && s.cpus[s.locks[p].value].job.q == p
    then s.cpus[s.locks[p].value].job else NoJob
  }

  predicate ProcOk(s: System, p: nat)
    requires p < |s.procs| && p < |s.locks|
  {
    var x, j := s.procs[p], JobOn(s, p);
    && (x.kpt != 0 ==> x.kpt in s.live)
    && (!x.state.UNUSED? && x.kpt == 0 ==> j.Freeing?)
    && (x.state.UNUSED? && x.kpt != 0 ==> j.Forking? || j.Starting? || j.Filled?)
    && (!x.state.UNUSED? && x.kpt != 0 && x.mirror.None? ==> j.Announced?)
    && (x.pending.Some? ==> x.mirror.Some? && x.kpt != 0 && (x.state.RUNNING? || x.state.RUNNABLE?))
  }

  // At most one CPU is on a process.
  ghost predicate Exclusive(s: System) {
    forall c, d, p: nat | 0 <= c < d < |s.cpus| && On(s.cpus[c].pc, p) :: !On(s.cpus[d].pc, p)
  }

  ghost predicate TablesDistinct(s: System) {
    forall p, q | 0 <= p < q < |s.procs| && s.procs[p].kpt != 0 :: s.procs[p].kpt != s.procs[q].kpt
  }

  ghost predicate Inv(s: System) {
    && |s.locks| == |s.procs|
    && (forall c | 0 <= c < |s.cpus| :: CpuOk(s, c))
    && (forall c | 0 <= c < |s.cpus| :: JobOk(s, c))
    && (forall p | 0 <= p < |s.procs| :: ProcOk(s, p))
    && Exclusive(s) && TablesDistinct(s)
  }

  lemma StartInv(config: P.Config, ncpu: nat, nproc: nat)
    ensures Inv(Start(config, ncpu, nproc))
  {
  }

  // A process in use has a table, unless a freeproc is at work on it.
  lemma HasTable(s: System, c: nat, p: nat)
    requires Inv(s) && Holds(s, c, p) && c < |s.cpus| && s.cpus[c].job.NoJob? && !s.procs[p].state.UNUSED?
    ensures s.procs[p].kpt != 0
  {
    assert ProcOk(s, p);
  }

  // The events of the scheduler's own loop.
  predicate InLoop(e: Event) {
    || e.Acquire? || e.Skip? || e.Pick? || e.SetCurrent? || e.LoadTable? || e.SwitchTo?
    || e.RestoreTable? || e.ClearCurrent? || e.Release?
  }

  // The CPU that makes the step.
  lemma OwnCpu(s: System, e: Event)
    requires Inv(s) && Enabled(s, e)
    ensures CpuOk(Apply(s, e), e.c)
  {
    hide ProcOk, TablesDistinct, Exclusive, Accepts, M.Apply, M.Whole;
    assert CpuOk(s, e.c) && JobOk(s, e.c);
    if e.LoadTable? {
      HasTable(s, e.c, s.cpus[e.c].pc.p);
    }
  }

  // All others: what they rely on is under a lock they hold, or is theirs alone.
  lemma OtherCpuLoop(s: System, e: Event, c: nat)
    requires Inv(s) && Enabled(s, e) && c < |s.cpus| && c != e.c && InLoop(e)
    ensures CpuOk(Apply(s, e), c)
  {
    assert CpuOk(s, c) && CpuOk(s, e.c);
    hide ProcOk, TablesDistinct, JobOk, Exclusive;
  }

  lemma OtherCpuKernel(s: System, e: Event, c: nat)
    requires Inv(s) && Enabled(s, e) && c < |s.cpus| && c != e.c && !InLoop(e)
    ensures CpuOk(Apply(s, e), c)
  {
    assert CpuOk(s, c) && CpuOk(s, e.c) && JobOk(s, e.c);
    if e.SetOwnState? {
      assert On(s.cpus[e.c].pc, s.cpus[e.c].pc.p);
      assert c < e.c ==> !On(s.cpus[c].pc, s.cpus[e.c].pc.p);
    }
    hide ProcOk, TablesDistinct;
  }

  lemma NextCpu(s: System, e: Event, c: nat)
    requires Inv(s) && Enabled(s, e) && c < |s.cpus|
    ensures CpuOk(Apply(s, e), c)
  {
    hide Inv, CpuOk;
    if c == e.c {
      OwnCpu(s, e);
    } else if InLoop(e) {
      OtherCpuLoop(s, e, c);
    } else {
      OtherCpuKernel(s, e, c);
    }
  }

  lemma OwnJob(s: System, e: Event)
    requires Inv(s) && Enabled(s, e)
    ensures JobOk(Apply(s, e), e.c)
  {
    hide TablesDistinct, Exclusive, ProcOk, Accepts, M.Apply, M.Whole;
    assert CpuOk(s, e.c) && JobOk(s, e.c);
  }

  lemma OtherJobLoop(s: System, e: Event, c: nat)
    requires Inv(s) && Enabled(s, e) && c < |s.cpus| && c != e.c && InLoop(e)
    ensures JobOk(Apply(s, e), c)
  {
    assert CpuOk(s, e.c) && JobOk(s, c);
    hide TablesDistinct, Exclusive, ProcOk;
  }

  lemma OtherJobKernel(s: System, e: Event, c: nat)
    requires Inv(s) && Enabled(s, e) && c < |s.cpus| && c != e.c && !InLoop(e)
    ensures JobOk(Apply(s, e), c)
  {
    assert CpuOk(s, e.c) && JobOk(s, e.c) && JobOk(s, c);
    hide TablesDistinct, Exclusive, ProcOk;
  }

  lemma OtherJob(s: System, e: Event, c: nat)
    requires Inv(s) && Enabled(s, e) && c < |s.cpus| && c != e.c
    ensures JobOk(Apply(s, e), c)
  {
    hide Inv, Enabled, Apply, JobOk;
    if InLoop(e) {
      OtherJobLoop(s, e, c);
    } else {
      OtherJobKernel(s, e, c);
    }
  }

  lemma NextJob(s: System, e: Event, c: nat)
    requires Inv(s) && Enabled(s, e) && c < |s.cpus|
    ensures JobOk(Apply(s, e), c)
  {
    hide Inv, JobOk;
    if c == e.c {
      OwnJob(s, e);
    } else {
      OtherJob(s, e, c);
    }
  }

  // A step puts a CPU on a process only by picking it.
  lemma OnNext(s: System, e: Event, c: nat, p: nat)
    requires Enabled(s, e)
    ensures |Apply(s, e).cpus| == |s.cpus|
    ensures c < |s.cpus| && On(Apply(s, e).cpus[c].pc, p) ==>
              On(s.cpus[c].pc, p) || (e == Pick(c) && s.cpus[c].pc == Locked(p))
  {
  }

  lemma PickedAlone(s: System, c: nat, p: nat, d: nat)
    requires Inv(s) && Enabled(s, Pick(c)) && s.cpus[c].pc == Locked(p) && d < |s.cpus|
    ensures !On(s.cpus[d].pc, p)
  {
    assert CpuOk(s, c) && CpuOk(s, d);
    hide JobOk, ProcOk, Exclusive, TablesDistinct;
  }

  lemma NextExclusive(s: System, e: Event)
    requires Inv(s) && Enabled(s, e)
    ensures Exclusive(Apply(s, e))
  {
    hide TablesDistinct, ProcOk, JobOk, CpuOk, Apply, Enabled, On;
    var s' := Apply(s, e);
    OnNext(s, e, e.c, 0);
    forall c: nat, d: nat, p: nat | c < d < |s'.cpus| && On(s'.cpus[c].pc, p)
      ensures !On(s'.cpus[d].pc, p)
    {
      OnNext(s, e, c, p);
      OnNext(s, e, d, p);
      if e == Pick(c) && s.cpus[c].pc == Locked(p) {
        PickedAlone(s, c, p, d);
      } else if e == Pick(d) && s.cpus[d].pc == Locked(p) {
        PickedAlone(s, d, p, c);
      }
    }
  }

  lemma NextProcLoop(s: System, e: Event, p: nat)
    requires Inv(s) && Enabled(s, e) && p < |s.procs| && InLoop(e)
    ensures |Apply(s, e).procs| == |Apply(s, e).locks| == |s.procs| && ProcOk(Apply(s, e), p)
  {
    assert CpuOk(s, e.c) && JobOk(s, e.c) && ProcOk(s, p);
    hide Exclusive, TablesDistinct;
  }

  lemma NextProcKernel(s: System, e: Event, p: nat)
    requires Inv(s) && Enabled(s, e) && p < |s.procs| && !InLoop(e) && !ByItself(e) && !Frees(e)
    ensures |Apply(s, e).procs| == |Apply(s, e).locks| == |s.procs| && ProcOk(Apply(s, e), p)
  {
    assert CpuOk(s, e.c) && JobOk(s, e.c) && ProcOk(s, p);
    hide Exclusive, TablesDistinct;
  }

  predicate Frees(e: Event) { e.Reap? || e.AllocFailed? }

  lemma NextProcFrees(s: System, e: Event, p: nat)
    requires Inv(s) && Enabled(s, e) && p < |s.procs| && Frees(e)
    ensures |Apply(s, e).procs| == |Apply(s, e).locks| == |s.procs| && ProcOk(Apply(s, e), p)
  {
    assert CpuOk(s, e.c) && JobOk(s, e.c) && ProcOk(s, p);
    var q := if e.Reap? then e.q else s.cpus[e.c].job.q;
    assert p != q && s.procs[p].kpt != 0 ==> s.procs[p].kpt != s.procs[q].kpt;
    hide Exclusive, TablesDistinct;
  }

  // The steps a process makes itself.
  predicate ByItself(e: Event) { e.Resize? || e.Mirror? || e.SetOwnState? }

  lemma NextProcItself(s: System, e: Event, p: nat)
    requires Inv(s) && Enabled(s, e) && p < |s.procs| && ByItself(e)
    ensures |Apply(s, e).procs| == |Apply(s, e).locks| == |s.procs| && ProcOk(Apply(s, e), p)
  {
    assert CpuOk(s, e.c) && ProcOk(s, p);
    if s.locks[p].Some? && s.locks[p].value < |s.cpus| {
      assert JobOk(s, s.locks[p].value);
    }
    hide Exclusive, TablesDistinct;
  }

  lemma NextProc(s: System, e: Event, p: nat)
    requires Inv(s) && Enabled(s, e) && p < |s.procs|
    ensures |Apply(s, e).procs| == |Apply(s, e).locks| == |s.procs| && ProcOk(Apply(s, e), p)
  {
    hide Inv, ProcOk;
    if InLoop(e) {
      NextProcLoop(s, e, p);
    } else if ByItself(e) {
      NextProcItself(s, e, p);
    } else if Frees(e) {
      NextProcFrees(s, e, p);
    } else {
      NextProcKernel(s, e, p);
    }
  }

  lemma NextDistinct(s: System, e: Event)
    requires Inv(s) && Enabled(s, e)
    ensures TablesDistinct(Apply(s, e))
  {
    hide Exclusive, CpuOk, JobOk, JobOn;
    forall p | 0 <= p < |s.procs|
      ensures e.Alloc? ==> s.procs[p].kpt != e.t
    {
      assert ProcOk(s, p);
    }
  }

  lemma NextInv(s: System, e: Event)
    requires Inv(s) && Enabled(s, e)
    ensures Inv(Apply(s, e))
  {
    var s' := Apply(s, e);
    assert |s'.cpus| == |s.cpus| && |s'.procs| == |s.procs| && |s'.locks| == |s.locks|;
    NextExclusive(s, e);
    NextDistinct(s, e);
    forall c | 0 <= c < |s'.cpus|
      ensures CpuOk(s', c) && JobOk(s', c)
    {
      NextCpu(s, e, c);
      NextJob(s, e, c);
    }
    forall p | 0 <= p < |s'.procs|
      ensures ProcOk(s', p)
    {
      NextProc(s, e, p);
    }
    hide CpuOk, JobOk, ProcOk, Exclusive, TablesDistinct;
  }

  /* All runs. */

  // The events happen one after the other, each allowed in its turn.
  ghost predicate Run(s: System, es: seq<Event>)
    decreases |es|
  {
    es == [] || (Enabled(s, es[0]) && Run(Apply(s, es[0]), es[1..]))
  }

  ghost function After(s: System, es: seq<Event>): System
    requires Run(s, es)
    decreases |es|
  {
    if es == [] then s else After(Apply(s, es[0]), es[1..])
  }

  lemma {:induction false} RunInv(s: System, es: seq<Event>)
    requires Inv(s) && Run(s, es)
    ensures Inv(After(s, es))
    decreases |es|
  {
    if es != [] {
      NextInv(s, es[0]);
      RunInv(Apply(s, es[0]), es[1..]);
    }
  }

  // satp is safe: it holds the global table or one that is not freed; the running
  // process's own while it runs, as its CPU's current one; the global one whenever a
  // CPU has no current process.
  predicate SatpSafe(s: System, c: nat)
    requires c < |s.cpus|
  {
    var u := s.cpus[c];
    && (u.satp == 0 || u.satp in s.live)
    && (u.pc.Running? ==> u.pc.p < |s.procs| && u.satp == s.procs[u.pc.p].kpt && u.satp in s.live)
    && (u.pc.Running? ==> u.current == Some(u.pc.p))
    && (u.current.None? ==> u.satp == 0)
  }

  lemma InvSafe(s: System, c: nat)
    requires Inv(s) && c < |s.cpus|
    ensures SatpSafe(s, c)
  {
    assert CpuOk(s, c);
    var u := s.cpus[c];
    if u.satp != 0 {
      assert ProcOk(s, u.pc.p);
    }
  }

  lemma RunSafe(config: P.Config, ncpu: nat, nproc: nat, es: seq<Event>, c: nat)
    requires Run(Start(config, ncpu, nproc), es) && c < |After(Start(config, ncpu, nproc), es).cpus|
    ensures SatpSafe(After(Start(config, ncpu, nproc), es), c)
  {
    StartInv(config, ncpu, nproc);
    RunInv(Start(config, ncpu, nproc), es);
    InvSafe(After(Start(config, ncpu, nproc), es), c);
  }

  // The table a freeproc frees is in no CPU's satp.
  lemma FreedUnused(s: System, e: Event, c: nat)
    requires Inv(s) && Enabled(s, e) && Frees(e) && c < |s.cpus|
    ensures var t := s.procs[if e.Reap? then e.q else s.cpus[e.c].job.q].kpt;
            t != 0 && s.cpus[c].satp != t && t !in Apply(s, e).live
  {
    var q := if e.Reap? then e.q else s.cpus[e.c].job.q;
    assert CpuOk(s, e.c) && JobOk(s, e.c) && ProcOk(s, q) && CpuOk(s, c);
    if e.Reap? {
      HasTable(s, e.c, q);
    }
    var u := s.cpus[c];
    if u.satp != 0 && u.pc.p != q {
      assert s.procs[u.pc.p].kpt != s.procs[q].kpt;
    }
    hide Exclusive;
  }

  /* The life of a process. */

  // The states that a process can go over to.
  predicate Leads(from: P.State, to: P.State) {
    match from
    case UNUSED => to.RUNNABLE?
    case RUNNABLE => to.RUNNING?
    case RUNNING => to.RUNNABLE? || to.SLEEPING? || to.ZOMBIE?
    case SLEEPING => to.RUNNABLE?
    case ZOMBIE => to.UNUSED?
  }

  // A state changes only along these, by a CPU that holds the process's lock: a process
  // comes to run by being picked, and stops by its own doing.
  lemma NextLife(s: System, e: Event, p: nat)
    requires Inv(s) && Enabled(s, e) && p < |s.procs|
    ensures |Apply(s, e).procs| == |s.procs|
    ensures var x, x' := s.procs[p].state, Apply(s, e).procs[p].state;
            x' != x ==>
              && Leads(x, x') && Holds(s, e.c, p) && e.c < |s.cpus|
              && (x'.RUNNING? ==> e == Pick(e.c) && s.cpus[e.c].pc == Locked(p))
              && (x.RUNNING? ==> e == SetOwnState(e.c, x') && s.cpus[e.c].pc == Running(p))
  {
    hide ProcOk, TablesDistinct, Exclusive, Accepts, M.Apply, M.Whole;
    assert CpuOk(s, e.c) && JobOk(s, e.c);
  }

  // A process is RUNNING only while a CPU that has picked it is on it.
  ghost predicate RunningOn(s: System, p: nat)
    requires p < |s.procs|
  {
    s.procs[p].state.RUNNING? ==> exists c :: 0 <= c < |s.cpus| && IsOn(s.cpus[c].pc, p)
  }

  predicate IsOn(pc: Pc, p: nat) {
    pc == Picked(p) || pc == Chosen(p) || pc == Loaded(p) || pc == Running(p)
  }

  lemma OnIsRunning(s: System, c: nat, p: nat)
    requires Inv(s) && c < |s.cpus| && IsOn(s.cpus[c].pc, p)
    ensures p < |s.procs| && s.procs[p].state.RUNNING?
  {
    assert CpuOk(s, c);
  }

  lemma NextRunningOn(s: System, e: Event, p: nat)
    requires Inv(s) && Enabled(s, e) && p < |s.procs| && RunningOn(s, p)
    ensures |Apply(s, e).procs| == |s.procs| && RunningOn(Apply(s, e), p)
  {
    hide Inv, Enabled, Apply, Leads, IsOn;
    NextLife(s, e, p);
    var s' := Apply(s, e);
    if s'.procs[p].state.RUNNING? {
      StaysOn(s, e, e.c, p);
      if s.procs[p].state.RUNNING? {
        var c :| 0 <= c < |s.cpus| && IsOn(s.cpus[c].pc, p);
        StaysOn(s, e, c, p);
        assert IsOn(s'.cpus[c].pc, p);
      } else {
        assert IsOn(s'.cpus[e.c].pc, p);
      }
    }
  }

  // A CPU leaves a process only when that gives up its state.
  lemma StaysOn(s: System, e: Event, c: nat, p: nat)
    requires Enabled(s, e)
    ensures e.c < |s.cpus| == |Apply(s, e).cpus|
    ensures c < |s.cpus| && IsOn(s.cpus[c].pc, p) && !IsOn(Apply(s, e).cpus[c].pc, p) ==>
              p < |s.procs| == |Apply(s, e).procs| && !Apply(s, e).procs[p].state.RUNNING?
    ensures e == Pick(e.c) && s.cpus[e.c].pc == Locked(p) ==> IsOn(Apply(s, e).cpus[e.c].pc, p)
  {
    hide Accepts, M.Apply, M.Whole;
  }

  lemma {:induction false} RunRunningOn(s: System, es: seq<Event>, p: nat)
    requires Inv(s) && Run(s, es) && p < |s.procs| && RunningOn(s, p)
    ensures |After(s, es).procs| == |s.procs| && Inv(After(s, es)) && RunningOn(After(s, es), p)
    decreases |es|
  {
    hide Inv, RunningOn, Enabled, Apply;
    if es != [] {
      NextInv(s, es[0]);
      NextRunningOn(s, es[0], p);
      RunRunningOn(Apply(s, es[0]), es[1..], p);
    }
  }

  // In every run a process is RUNNING exactly while a CPU that has picked it is on it.
  lemma RunningIff(config: P.Config, ncpu: nat, nproc: nat, es: seq<Event>, p: nat)
    requires Run(Start(config, ncpu, nproc), es) && p < nproc
    ensures var s := After(Start(config, ncpu, nproc), es);
            p < |s.procs| && (s.procs[p].state.RUNNING? <==> exists c :: 0 <= c < |s.cpus| && IsOn(s.cpus[c].pc, p))
  {
    hide Run, After, Inv, IsOn;
    StartInv(config, ncpu, nproc);
    RunRunningOn(Start(config, ncpu, nproc), es, p);
    var s := After(Start(config, ncpu, nproc), es);
    forall c: nat | c < |s.cpus| && IsOn(s.cpus[c].pc, p)
      ensures s.procs[p].state.RUNNING?
    {
      OnIsRunning(s, c, p);
    }
  }

  // In its loop a CPU holds the lock of the process it is at and no other; looking for
  // one, none at all.
  ghost predicate LoopHolds(s: System, c: nat)
    requires c < |s.cpus|
  {
    var pc := s.cpus[c].pc;
    && (pc.Idle? ==> forall q | 0 <= q < |s.locks| :: s.locks[q] != Some(c))
    && (pc.Locked? || pc.Picked? || pc.Chosen? || pc.Loaded? || pc.Back? || pc.Restored? || pc.Cleared? ==>
          Holds(s, c, pc.p) && HoldsOnly(s, c, pc.p))
  }

  lemma NextLoopHolds(s: System, e: Event, c: nat)
    requires Inv(s) && Enabled(s, e) && c < |s.cpus| && LoopHolds(s, c)
    ensures |Apply(s, e).cpus| == |s.cpus| && LoopHolds(Apply(s, e), c)
    ensures e.Skip? || e.Release? ==> |s.locks| == |s.procs| && e.c < |s.cpus| && Holds(s, e.c, s.cpus[e.c].pc.p)
                                      && Apply(s, e).locks == s.locks[s.cpus[e.c].pc.p := None]
  {
    hide Inv, LoopHolds, Enabled, Apply, Holds;
    if c == e.c {
      OwnLoopHolds(s, e);
    } else {
      OtherLoopHolds(s, e, c);
    }
    GivesUp(s, e);
  }

  lemma GivesUp(s: System, e: Event)
    requires Inv(s) && Enabled(s, e)
    ensures e.Skip? || e.Release? ==> |s.locks| == |s.procs| && e.c < |s.cpus| && Holds(s, e.c, s.cpus[e.c].pc.p)
                                      && Apply(s, e).locks == s.locks[s.cpus[e.c].pc.p := None]
  {
    hide ProcOk, JobOk, CpuOk, TablesDistinct, Exclusive;
    LoopAt(s, e.c);
  }

  lemma OwnLoopHolds(s: System, e: Event)
    requires Inv(s) && Enabled(s, e) && LoopHolds(s, e.c)
    ensures |Apply(s, e).cpus| == |s.cpus| && LoopHolds(Apply(s, e), e.c)
  {
    hide ProcOk, JobOk, CpuOk, TablesDistinct, Exclusive, Accepts, M.Apply, M.Whole;
    LoopAt(s, e.c);
  }

  // A CPU gets no lock and goes nowhere by another's steps.
  lemma OtherLoopHolds(s: System, e: Event, c: nat)
    requires Inv(s) && Enabled(s, e) && c < |s.cpus| && c != e.c && LoopHolds(s, c)
    ensures |Apply(s, e).cpus| == |s.cpus| && LoopHolds(Apply(s, e), c)
  {
    hide ProcOk, JobOk, CpuOk, TablesDistinct, Exclusive, LoopHolds, Accepts, M.Apply, M.Whole;
    LoopAt(s, e.c);
    JobAt(s, e.c);
    var s' := Apply(s, e);
    assert |s'.locks| == |s.locks| && s'.cpus[c] == s.cpus[c];
    forall q | 0 <= q < |s.locks|
      ensures s'.locks[q] == Some(c) <==> s.locks[q] == Some(c)
    {
    }
    SameLoopHolds(s, s', c);
  }

  lemma SameLoopHolds(s: System, s': System, c: nat)
    requires c < |s.cpus| && c < |s'.cpus| && s'.cpus[c] == s.cpus[c] && LoopHolds(s, c)
    requires |s'.locks| == |s.locks| && |s'.procs| == |s.procs|
    requires forall q | 0 <= q < |s.locks| :: s'.locks[q] == Some(c) <==> s.locks[q] == Some(c)
    ensures LoopHolds(s', c)
  {
  }

  lemma JobAt(s: System, c: nat)
    requires Inv(s) && c < |s.cpus|
    ensures !s.cpus[c].job.NoJob? ==> Holds(s, c, s.cpus[c].job.q)
  {
    assert JobOk(s, c);
  }

  lemma LoopAt(s: System, c: nat)
    requires Inv(s) && c < |s.cpus|
    ensures var pc := s.cpus[c].pc;
            && (!InKernel(pc) ==> s.cpus[c].job.NoJob?)
            && (!InKernel(pc) && !pc.Idle? ==> Holds(s, c, pc.p))
  {
    assert CpuOk(s, c);
  }

  lemma {:induction false} RunLoopHolds(s: System, es: seq<Event>, c: nat)
    requires Inv(s) && Run(s, es) && c < |s.cpus| && LoopHolds(s, c)
    ensures |After(s, es).cpus| == |s.cpus| && LoopHolds(After(s, es), c)
    decreases |es|
  {
    hide Inv, LoopHolds, Enabled, Apply;
    if es != [] {
      NextInv(s, es[0]);
      NextLoopHolds(s, es[0], c);
      RunLoopHolds(Apply(s, es[0]), es[1..], c);
    }
  }

  // In every run a CPU that looks for a process holds no process lock.
  lemma IdleHoldsNone(config: P.Config, ncpu: nat, nproc: nat, es: seq<Event>, c: nat, q: nat)
    requires Run(Start(config, ncpu, nproc), es)
    requires var s := After(Start(config, ncpu, nproc), es);
             c < |s.cpus| && q < |s.locks| && s.locks[q] == Some(c)
    ensures !After(Start(config, ncpu, nproc), es).cpus[c].pc.Idle?
  {
    hide Run, After, Inv;
    StartInv(config, ncpu, nproc);
    RunCpus(Start(config, ncpu, nproc), es);
    RunLoopHolds(Start(config, ncpu, nproc), es, c);
  }

  lemma {:induction false} RunCpus(s: System, es: seq<Event>)
    requires Run(s, es)
    ensures |After(s, es).cpus| == |s.cpus|
    decreases |es|
  {
    hide Enabled;
    if es != [] {
      OnNext(s, es[0], 0, 0);
      hide Apply;
      RunCpus(Apply(s, es[0]), es[1..]);
    }
  }

  // A scheduler that holds a process's lock and sees RUNNABLE finds the mirror made, though
  // fork announces the child before it copies the pages.
  lemma PickedSynced(s: System, c: nat)
    requires Inv(s) && Enabled(s, Pick(c))
    ensures s.procs[s.cpus[c].pc.p].mirror.Some? && s.procs[s.cpus[c].pc.p].kpt != 0
  {
    assert CpuOk(s, c);
    HasTable(s, c, s.cpus[c].pc.p);
    assert ProcOk(s, s.cpus[c].pc.p);
  }

  lemma RunPickedSynced(config: P.Config, ncpu: nat, nproc: nat, es: seq<Event>, c: nat)
    requires Run(Start(config, ncpu, nproc), es) && Enabled(After(Start(config, ncpu, nproc), es), Pick(c))
    ensures var s := After(Start(config, ncpu, nproc), es); s.procs[s.cpus[c].pc.p].mirror.Some?
  {
    StartInv(config, ncpu, nproc);
    RunInv(Start(config, ncpu, nproc), es);
    PickedSynced(After(Start(config, ncpu, nproc), es), c);
  }

  // A process yields halfway through its own growproc or exec.
  ghost predicate Interrupts(s: System, e: Event)
    requires Enabled(s, e)
  {
    e.SetOwnState? && s.procs[s.cpus[e.c].pc.p].pending.Some?
  }

  // No process did so in the run.
  ghost predicate Undisturbed(s: System, es: seq<Event>)
    requires Run(s, es)
    decreases |es|
  {
    es == [] || (!Interrupts(s, es[0]) && Undisturbed(Apply(s, es[0]), es[1..]))
  }

  // Only running processes have a mirror out of step.
  ghost predicate InStep(s: System) {
    forall p | 0 <= p < |s.procs| && s.procs[p].pending.Some? ::
      exists c :: 0 <= c < |s.cpus| && s.cpus[c].pc == Running(p)
  }

  // A running process stays so, and none but a running one gets out of step.
  lemma ResizingNext(s: System, e: Event, p: nat)
    requires Inv(s) && Enabled(s, e) && !Interrupts(s, e)
    ensures |Apply(s, e).procs| == |s.procs| && |Apply(s, e).cpus| == |s.cpus| && e.c < |s.cpus|
    ensures p < |s.procs| && Apply(s, e).procs[p].pending.Some? ==>
              s.procs[p].pending.Some? || s.cpus[e.c].pc == Running(p)
    ensures p < |s.procs| && Apply(s, e).procs[p].pending.Some? && s.cpus[e.c].pc == Running(p) ==>
              Apply(s, e).cpus[e.c].pc == Running(p)
    ensures forall c | 0 <= c < |s.cpus| && c != e.c :: Apply(s, e).cpus[c].pc == s.cpus[c].pc
  {
    hide ProcOk, TablesDistinct, Exclusive, JobOk, CpuOk;
  }

  lemma NextInStep(s: System, e: Event)
    requires Inv(s) && Enabled(s, e) && InStep(s) && !Interrupts(s, e)
    ensures InStep(Apply(s, e))
  {
    hide Inv, Enabled, Apply, Interrupts;
    var s' := Apply(s, e);
    ResizingNext(s, e, 0);
    forall p: nat | p < |s'.procs| && s'.procs[p].pending.Some?
      ensures exists c :: 0 <= c < |s'.cpus| && s'.cpus[c].pc == Running(p)
    {
      ResizingNext(s, e, p);
      if s.procs[p].pending.Some? {
        var c :| 0 <= c < |s.cpus| && s.cpus[c].pc == Running(p);
        assert s'.cpus[c].pc == Running(p);
      }
    }
  }

  lemma InterruptBreaks(s: System, e: Event)
    requires Inv(s) && Enabled(s, e) && Interrupts(s, e)
    ensures !InStep(Apply(s, e))
  {
    hide ProcOk, JobOk, CpuOk, TablesDistinct;
    var s', p := Apply(s, e), s.cpus[e.c].pc.p;
    assert On(s.cpus[e.c].pc, p);
    forall d: nat | d < |s'.cpus|
      ensures s'.cpus[d].pc != Running(p)
    {
      assert d < e.c ==> !On(s.cpus[e.c].pc, p) || !On(s.cpus[d].pc, p);
    }
  }

  // Exactly the other steps keep the mirrors of all but running processes in step.
  lemma NextInStepIff(s: System, e: Event)
    requires Inv(s) && Enabled(s, e) && InStep(s)
    ensures InStep(Apply(s, e)) <==> !Interrupts(s, e)
  {
    hide Inv, InStep, Enabled, Apply, Interrupts;
    if Interrupts(s, e) {
      InterruptBreaks(s, e);
    } else {
      NextInStep(s, e);
    }
  }

  lemma {:induction false} RunInStep(s: System, es: seq<Event>)
    requires Inv(s) && Run(s, es) && InStep(s) && Undisturbed(s, es)
    ensures InStep(After(s, es))
    decreases |es|
  {
    hide Inv, InStep, Interrupts, Apply, Enabled;
    if es != [] {
      NextInv(s, es[0]);
      NextInStep(s, es[0]);
      RunInStep(Apply(s, es[0]), es[1..]);
    }
  }

  // In a run without such yields a scheduler picks only processes whose mirror has
  // been made and is in step.
  lemma RunPickedInStep(config: P.Config, ncpu: nat, nproc: nat, es: seq<Event>, c: nat)
    requires Run(Start(config, ncpu, nproc), es) && Enabled(After(Start(config, ncpu, nproc), es), Pick(c))
    requires Undisturbed(Start(config, ncpu, nproc), es)
    ensures var s := After(Start(config, ncpu, nproc), es);
            var x := s.procs[s.cpus[c].pc.p];
            x.mirror.Some? && x.pending.None?
  {
    hide ProcOk, JobOk;
    StartInv(config, ncpu, nproc);
    RunInv(Start(config, ncpu, nproc), es);
    RunInStep(Start(config, ncpu, nproc), es);
    var s := After(Start(config, ncpu, nproc), es);
    PickedSynced(s, c);
    forall d | 0 <= d < |s.cpus|
      ensures s.cpus[d].pc != Running(s.cpus[c].pc.p)
    {
      PickedNotRunning(s, c, d);
    }
    hide Inv;
  }

  lemma PickedNotRunning(s: System, c: nat, d: nat)
    requires Inv(s) && Enabled(s, Pick(c)) && d < |s.cpus|
    ensures s.cpus[d].pc != Running(s.cpus[c].pc.p)
  {
    assert CpuOk(s, d);
  }

  /* Complete mirrors. */

  // All mirrors are complete, and will be when the resizes under way are through.
  ghost predicate AllComplete(s: System) {
    forall p | 0 <= p < |s.procs| :: Mirrored(s.procs[p].mirror) && Mirrored(s.procs[p].pending)
  }

  ghost predicate Mirrored(o: Option<M.Size>) {
    o.Some? ==> M.Complete(o.value.sz, o.value.mp)
  }

  // A growth is by a stretch that the copy covers.
  ghost predicate Covers(s: System, e: Event)
    requires Enabled(s, e)
  {
    e.Resize? ==> M.AlignedStep(s.config, s.procs[s.cpus[e.c].pc.p].mirror.value, e.e)
  }

  ghost predicate AllCovered(s: System, es: seq<Event>)
    requires Run(s, es)
    decreases |es|
  {
    es == [] || (Covers(s, es[0]) && AllCovered(Apply(s, es[0]), es[1..]))
  }

  // Exactly the steps that are not growths with a hole keep all mirrors complete.
  lemma NextCompleteIff(s: System, e: Event)
    requires Enabled(s, e) && AllComplete(s)
    ensures AllComplete(Apply(s, e)) <==> Covers(s, e)
  {
    hide M.Apply, M.Complete, M.AlignedStep;
    var s' := Apply(s, e);
    if e.Resize? {
      var p := s.cpus[e.c].pc.p;
      var x := s.procs[p].mirror.value;
      M.ApplyComplete(s.config, x, e.e);
      assert s'.procs[p].pending == Some(M.Apply(s.config, x, e.e).s);
    }
    if e.CopyPages? {
      M.WholeComplete(e.sz);
    }
  }

  lemma {:induction false} RunComplete(s: System, es: seq<Event>)
    requires Run(s, es) && AllComplete(s) && AllCovered(s, es)
    ensures AllComplete(After(s, es))
    decreases |es|
  {
    hide Enabled, Apply, AllComplete, Covers;
    if es != [] {
      NextCompleteIff(s, es[0]);
      RunComplete(Apply(s, es[0]), es[1..]);
    }
  }

  // With neither such yields nor such growths, a scheduler picks only processes that
  // are mirrored from the first page to the last.
  lemma RunPickedComplete(config: P.Config, ncpu: nat, nproc: nat, es: seq<Event>, c: nat)
    requires var s := Start(config, ncpu, nproc);
             Run(s, es) && Undisturbed(s, es) && AllCovered(s, es) && Enabled(After(s, es), Pick(c))
    ensures var s := After(Start(config, ncpu, nproc), es);
            var x := s.procs[s.cpus[c].pc.p];
            x.pending.None? && x.mirror.Some? && M.Complete(x.mirror.value.sz, x.mirror.value.mp)
  {
    hide Run, After, Undisturbed, AllCovered, M.Complete;
    RunPickedInStep(config, ncpu, nproc, es, c);
    RunComplete(Start(config, ncpu, nproc), es);
  }

  /* Interrupted resizes. */

  lemma RunNone(s: System)
    ensures Run(s, []) && After(s, []) == s
  {
  }

  lemma RunCons(s: System, e: Event, s': System, es: seq<Event>, all: seq<Event>)
    requires Enabled(s, e) && Apply(s, e) == s' && Run(s', es) && all == [e] + es
    ensures Run(s, all) && After(s, all) == After(s', es)
  {
  }

  // Nothing was done about process p's mirror.
  predicate SameMirror(s: System, t: System, p: nat)
    requires p < |s.procs| && p < |t.procs|
  {
    t.procs[p].mirror == s.procs[p].mirror && t.procs[p].pending == s.procs[p].pending
  }

  // The process has set its own state and holds its own lock, and those of processes
  // before q no more.
  ghost predicate Yields(s: System, c: nat, p: nat, q: nat) {
    && c < |s.cpus| && p < |s.procs| == |s.locks| && s.cpus[c].pc == Leaving(p) && s.cpus[c].job.NoJob?
    && s.procs[p].state.RUNNABLE? && s.procs[p].pending.Some?
    && forall i | 0 <= i < q && i < |s.locks| :: s.locks[i] == Some(c) ==> i == p
  }

  // It lets go of the others, and the next to be picked on its CPU is it again.
  lemma {:induction false} YieldPicked(s: System, c: nat, p: nat, q: nat) returns (es: seq<Event>)
    requires Yields(s, c, p, q) && q <= |s.locks|
    ensures Run(s, es)
    ensures var t := After(s, es);
            Enabled(t, Pick(c)) && t.cpus[c].pc == Locked(p) && p < |t.procs| && SameMirror(s, t, p)
    decreases |s.locks| - q
  {
    hide Run, After, Enabled, Apply;
    if q == |s.locks| {
      es := BackSteps(s, c, p);
    } else if q != p && s.locks[q] == Some(c) {
      var s' := LetGo(s, c, p, q);
      var rest := YieldPicked(s', c, p, q + 1);
      es := [Unlock(c, q)] + rest;
      RunCons(s, Unlock(c, q), s', rest, es);
    } else {
      es := YieldPicked(s, c, p, q + 1);
    }
  }

  lemma LetGo(s: System, c: nat, p: nat, q: nat) returns (s': System)
    requires Yields(s, c, p, q) && q < |s.locks| && q != p && s.locks[q] == Some(c)
    ensures Enabled(s, Unlock(c, q)) && Apply(s, Unlock(c, q)) == s'
    ensures Yields(s', c, p, q + 1) && |s'.locks| == |s.locks| && SameMirror(s, s', p)
  {
    s' := Apply(s, Unlock(c, q));
  }

  lemma BackSteps(s: System, c: nat, p: nat) returns (es: seq<Event>)
    requires Yields(s, c, p, |s.locks|)
    ensures Run(s, es)
    ensures var t := After(s, es);
            Enabled(t, Pick(c)) && t.cpus[c].pc == Locked(p) && p < |t.procs| && SameMirror(s, t, p)
  {
    hide Run, After, Enabled, Apply;
    var s1, s2, s3 := BackInLoop(s, c, p);
    var s4, t := NextInLoop(s3, c, p);
    es := [SwitchBack(c), RestoreTable(c), ClearCurrent(c), Release(c), Acquire(c, p)];
    RunNone(t);
    RunCons(s4, Acquire(c, p), t, [], es[4..]);
    RunCons(s3, Release(c), s4, es[4..], es[3..]);
    RunCons(s2, ClearCurrent(c), s3, es[3..], es[2..]);
    RunCons(s1, RestoreTable(c), s2, es[2..], es[1..]);
    RunCons(s, SwitchBack(c), s1, es[1..], es);
  }

  lemma BackInLoop(s: System, c: nat, p: nat) returns (s1: System, s2: System, s3: System)
    requires Yields(s, c, p, |s.locks|)
    ensures Enabled(s, SwitchBack(c)) && Apply(s, SwitchBack(c)) == s1
    ensures Enabled(s1, RestoreTable(c)) && Apply(s1, RestoreTable(c)) == s2
    ensures Enabled(s2, ClearCurrent(c)) && Apply(s2, ClearCurrent(c)) == s3
    ensures c < |s3.cpus| && s3.cpus[c].pc == Cleared(p) && s3.procs == s.procs && s3.locks == s.locks
  {
    s1 := Apply(s, SwitchBack(c));
    s2 := Apply(s1, RestoreTable(c));
    s3 := Apply(s2, ClearCurrent(c));
  }

  lemma NextInLoop(s: System, c: nat, p: nat) returns (s1: System, t: System)
    requires c < |s.cpus| && s.cpus[c].pc == Cleared(p) && p < |s.procs| == |s.locks| && s.procs[p].state.RUNNABLE?
    ensures Enabled(s, Release(c)) && Apply(s, Release(c)) == s1
    ensures Enabled(s1, Acquire(c, p)) && Apply(s1, Acquire(c, p)) == t
    ensures Enabled(t, Pick(c)) && t.cpus[c].pc == Locked(p) && t.procs == s.procs
  {
    s1 := Apply(s, Release(c));
    t := Apply(s1, Acquire(c, p));
  }

  // Whenever a process yields like that, it can be the next to be picked, out of step.
  lemma InterruptedPicked(s: System, c: nat) returns (es: seq<Event>)
    requires Enabled(s, SetOwnState(c, P.RUNNABLE)) && Interrupts(s, SetOwnState(c, P.RUNNABLE))
    ensures Run(Apply(s, SetOwnState(c, P.RUNNABLE)), es)
    ensures var p, t := s.cpus[c].pc.p, After(Apply(s, SetOwnState(c, P.RUNNABLE)), es);
            Enabled(t, Pick(c)) && t.cpus[c].pc == Locked(p) && p < |t.procs| && SameMirror(s, t, p)
  {
    hide Run, After;
    es := YieldPicked(Apply(s, SetOwnState(c, P.RUNNABLE)), c, s.cpus[c].pc.p, 0);
  }

  lemma RunJoin(s: System, es: seq<Event>, fs: seq<Event>)
    requires Run(s, es) && Run(After(s, es), fs)
    ensures Run(s, es + fs) && After(s, es + fs) == After(After(s, es), fs)
    decreases |es|
  {
    hide Run, After, Enabled, Apply;
    if es == [] {
      assert es + fs == fs;
      RunNone(s);
    } else {
      RunHead(s, es);
      RunJoin(Apply(s, es[0]), es[1..], fs);
      RunCons(s, es[0], Apply(s, es[0]), es[1..] + fs, es + fs);
    }
  }

  lemma RunHead(s: System, es: seq<Event>)
    requires Run(s, es) && es != []
    ensures Enabled(s, es[0]) && Run(Apply(s, es[0]), es[1..])
    ensures After(s, es) == After(Apply(s, es[0]), es[1..])
  {
    hide Enabled, Apply;
  }

  // The first process is made, and its CPU is about to enter the scheduler.
  ghost predicate Made(s: System, config: P.Config) {
    && s.config == config && 0 < |s.cpus| && 0 < |s.procs| == |s.locks|
    && s.cpus[0].pc.Boot? && s.cpus[0].job.NoJob? && s.procs[0].state.RUNNABLE?
    && s.procs[0].mirror == Some(M.Whole(4096)) && s.procs[0].pending.None?
    && forall q | 0 <= q < |s.locks| :: s.locks[q].None?
  }

  lemma MakeSteps(config: P.Config, ncpu: nat, nproc: nat, t: nat) returns (es: seq<Event>)
    requires 0 < ncpu && 0 < nproc && t != 0
    ensures Run(Start(config, ncpu, nproc), es) && Made(After(Start(config, ncpu, nproc), es), config)
  {
    hide Run, After, M.Whole;
    var s := Start(config, ncpu, nproc);
    var s1 := Apply(s, Lock(0, 0));
    var s2 := Apply(s1, Alloc(0, 0, t));
    var s3 := Apply(s2, CopyPages(0, 4096));
    var s4 := Apply(s3, Announce(0));
    var s5 := Apply(s4, EndJob(0));
    es := [Lock(0, 0), Alloc(0, 0, t), CopyPages(0, 4096), Announce(0), EndJob(0)];
    RunNone(s5);
    RunCons(s4, EndJob(0), s5, [], es[4..]);
    RunCons(s3, Announce(0), s4, es[4..], es[3..]);
    RunCons(s2, CopyPages(0, 4096), s3, es[3..], es[2..]);
    RunCons(s1, Alloc(0, 0, t), s2, es[2..], es[1..]);
    RunCons(s, Lock(0, 0), s1, es[1..], es);
  }

  // The CPU is on it, and holds its lock.
  ghost predicate Chose(s: System, config: P.Config, pc: Pc) {
    && s.config == config && 0 < |s.cpus| && 0 < |s.procs| == |s.locks|
    && s.cpus[0].pc == pc && s.cpus[0].job.NoJob? && s.locks[0] == Some(0)
    && s.procs[0].mirror == Some(M.Whole(4096)) && s.procs[0].pending.None?
  }

  lemma ChooseSteps(s: System, config: P.Config) returns (es: seq<Event>)
    requires Made(s, config)
    ensures Run(s, es) && Chose(After(s, es), config, Running(0))
  {
    hide Run, After, Enabled, Apply, M.Whole;
    var s1, s2, s3 := PickFirst(s, config);
    var s4, s5, s6 := SwitchFirst(s3, config);
    es := [Enter(0), Acquire(0, 0), Pick(0), SetCurrent(0), LoadTable(0), SwitchTo(0)];
    RunNone(s6);
    RunCons(s5, SwitchTo(0), s6, [], es[5..]);
    RunCons(s4, LoadTable(0), s5, es[5..], es[4..]);
    RunCons(s3, SetCurrent(0), s4, es[4..], es[3..]);
    RunCons(s2, Pick(0), s3, es[3..], es[2..]);
    RunCons(s1, Acquire(0, 0), s2, es[2..], es[1..]);
    RunCons(s, Enter(0), s1, es[1..], es);
  }

  lemma PickFirst(s: System, config: P.Config) returns (s1: System, s2: System, s3: System)
    requires Made(s, config)
    ensures Enabled(s, Enter(0)) && Apply(s, Enter(0)) == s1
    ensures Enabled(s1, Acquire(0, 0)) && Apply(s1, Acquire(0, 0)) == s2
    ensures Enabled(s2, Pick(0)) && Apply(s2, Pick(0)) == s3
    ensures Chose(s3, config, Picked(0))
  {
    hide M.Whole;
    s1 := Apply(s, Enter(0));
    s2 := Apply(s1, Acquire(0, 0));
    s3 := Apply(s2, Pick(0));
  }

  lemma SwitchFirst(s: System, config: P.Config) returns (s1: System, s2: System, s3: System)
    requires Chose(s, config, Picked(0))
    ensures Enabled(s, SetCurrent(0)) && Apply(s, SetCurrent(0)) == s1
    ensures Enabled(s1, LoadTable(0)) && Apply(s1, LoadTable(0)) == s2
    ensures Enabled(s2, SwitchTo(0)) && Apply(s2, SwitchTo(0)) == s3 && Chose(s3, config, Running(0))
  {
    hide M.Whole;
    s1 := Apply(s, SetCurrent(0));
    s2 := Apply(s1, LoadTable(0));
    s3 := Apply(s2, SwitchTo(0));
  }

  lemma ResizeSteps(s: System, config: P.Config, e: M.Event) returns (es: seq<Event>)
    requires Chose(s, config, Running(0)) && M.EventOk(e) && M.Apply(config, M.Whole(4096), e).Now?
    ensures Run(s, es)
    ensures var t, y := After(s, es), SetOwnState(0, P.RUNNABLE);
            && Enabled(t, y) && Interrupts(t, y) && t.cpus[0].pc == Running(0)
            && t.procs[0].mirror == Some(M.Whole(4096))
            && t.procs[0].pending == Some(M.Apply(config, M.Whole(4096), e).s)
  {
    hide Run, After, M.Whole, M.Apply, M.EventOk;
    var s1 := Apply(s, Unlock(0, 0));
    var s2 := Apply(s1, Resize(0, e));
    var s3 := Apply(s2, Lock(0, 0));
    es := [Unlock(0, 0), Resize(0, e), Lock(0, 0)];
    RunNone(s3);
    RunCons(s2, Lock(0, 0), s3, [], es[2..]);
    RunCons(s1, Resize(0, e), s2, es[2..], es[1..]);
    RunCons(s, Unlock(0, 0), s1, es[1..], es);
  }

  // And the first process can yield halfway through any growproc or exec it is
  // allowed, and be picked so.
  lemma InterruptReached(config: P.Config, ncpu: nat, nproc: nat, t: nat, e: M.Event) returns (es: seq<Event>)
    requires 0 < ncpu && 0 < nproc && t != 0 && M.EventOk(e) && M.Apply(config, M.Whole(4096), e).Now?
    ensures Run(Start(config, ncpu, nproc), es)
    ensures var s := After(Start(config, ncpu, nproc), es);
            && Enabled(s, Pick(0)) && s.cpus[0].pc == Locked(0)
            && s.procs[0].mirror == Some(M.Whole(4096))
            && s.procs[0].pending == Some(M.Apply(config, M.Whole(4096), e).s)
  {
    hide Run, After, Enabled, Apply, Interrupts, M.Whole, M.Apply, M.EventOk;
    es := MakeSteps(config, ncpu, nproc, t);
    var fs := ChooseSteps(After(Start(config, ncpu, nproc), es), config);
    RunJoin(Start(config, ncpu, nproc), es, fs);
    es := es + fs;
    fs := ResizeSteps(After(Start(config, ncpu, nproc), es), config, e);
    RunJoin(Start(config, ncpu, nproc), es, fs);
    es := es + fs;
    var y := SetOwnState(0, P.RUNNABLE);
    var s := After(Start(config, ncpu, nproc), es);
    fs := InterruptedPicked(s, 0);
    RunNone(Apply(s, y));
    RunCons(s, y, Apply(s, y), fs, [y] + fs);
    RunJoin(Start(config, ncpu, nproc), es, [y] + fs);
    es := es + ([y] + fs);
  }

  // Every fork passes through a state where the child is RUNNABLE and its mirror
  // not made; what keeps schedulers away from it is the lock.
  lemma AnnouncedEarly(s: System, c: nat)
    requires Inv(s) && Enabled(s, Announce(c)) && s.cpus[c].job.Forking?
    ensures var q, t := s.cpus[c].job.q, Apply(s, Announce(c));
            && t.procs[q].state.RUNNABLE? && t.procs[q].mirror.None? && t.locks[q] == Some(c)
            && (forall d: nat :: !Enabled(t, Acquire(d, q)))
            && forall d: nat, sz: nat | d != c :: !Enabled(t, CopyPages(d, sz)) || t.cpus[d].job.q != q
  {
    assert JobOk(s, c);
    var q, t := s.cpus[c].job.q, Apply(s, Announce(c));
    forall d: nat, sz: nat | d != c && d < |s.cpus|
      ensures !Enabled(t, CopyPages(d, sz)) || t.cpus[d].job.q != q
    {
      assert JobOk(s, d);
    }
  }
}
