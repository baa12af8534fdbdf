/**
 The pool with its locks: one per CentralCache bucket and one for PageCache. A thread runs
 through the lock and unlock statements of centralcache.cc and concurrentalloc.h, and what it
 does inside a section is a step of MemoryPool.
 */
module PoolLocks {
  import opened SizeClasses
  import opened PageModel
  import opened Blocks
  import opened MemoryPool
  import opened PoolTheorems
  import opened PoolSpans

  datatype Lock = BucketLock(i: nat) | PageLock

  /** What a thread does, or is about to do, while holding a lock. */
  datatype Job =
    | Search(i: nat, size: nat)     // fetchRangeObj: look for a span with a free block
    | Grow(i: nat, size: nat)       // getOneSpan: newSpan
    | List(i: nat)                  // getOneSpan and fetchRangeObj: list the carved span, fetch
    | GiveBack(i: nat)              // releaseList: the loop over the chain
    | GiveSpan(i: nat)              // releaseList: revertSpanToPageCache
    | TakeLarge(size: nat)          // concurrentAlloc above 256 KB
    | GiveLarge(a: Addr)            // concurrentFree of a large block

  /** Outside any section; at a lock(); inside; or at an unlock(), with what follows. */
  datatype Pc = Outside | Wants(job: Job) | Has(job: Job) | Leaves(lock: Lock, after: Pc)

  /** `held` is who owns each locked mutex. */
  datatype Sys = Sys(pool: Pool, pc: map<Tid, Pc>, held: map<Lock, Tid>)

  function LockOf(job: Job): Lock {
    match job
    case Search(i, _) => BucketLock(i)
    case Grow(_, _) => PageLock
    case List(i) => BucketLock(i)
    case GiveBack(i) => BucketLock(i)
    case GiveSpan(_) => PageLock
    case TakeLarge(_) => PageLock
    case GiveLarge(_) => PageLock
  }

  // ---------- the steps ----------

  datatype Step =
    | Local(ev: Event)                        // a thread's own cache only: no lock
    | CallFetch(t: Tid, size: nat)            // allocate found its cache list empty
    | CallReturn(t: Tid, i: nat, size: nat)   // a cache list goes to releaseList
    | CallTakeLarge(t: Tid, size: nat)
    | CallGiveLarge(t: Tid, a: Addr)
    | Acquire(t: Tid)
    | Work(t: Tid, cnt: nat, e: Supply)
    | Unlock(t: Tid)

  ghost predicate IsOutside(s: Sys, t: Tid) {
    t in s.pc ==> s.pc[t] == Outside
  }

  // The thread is about to free large block a.
  ghost predicate Gives(pc: Pc, a: Addr) {
    pc == Wants(GiveLarge(a)) || pc == Has(GiveLarge(a)) || (pc.Leaves? && pc.after == Wants(GiveLarge(a)))
  }

  // A user gives a block back only once.
  ghost predicate Claimed(s: Sys, a: Addr) {
    exists t :: t in s.pc && Gives(s.pc[t], a)
  }

  ghost predicate SearchFinds(p: Pool, i: nat) {
    i < |p.central| && FirstFree(p.central[i], p.free) < |p.central[i]|
  }

  /** The pool event that a thread's section performs; none when a search finds nothing. */
  ghost function SectionEvent(s: Sys, t: Tid, job: Job, cnt: nat, e: Supply): (ev: seq<Event>)
  {
    match job
    case Search(i, size) => if SearchFinds(s.pool, i) then [AllocListed(t, size, cnt)] else []
    case Grow(_, size) => [AllocSpan(t, size, e)]
    case List(_) => [AllocCarved(t, cnt)]
    case GiveBack(_) =>
      if t in s.pool.phase && s.pool.phase[t].Returning? && s.pool.phase[t].chain != [] then [ReturnBlock(t)]
      else [ReturnEnd(t)]
    case GiveSpan(_) => [ReturnSpan(t)]
    case TakeLarge(size) => [AllocLarge(t, size, e)]
    case GiveLarge(a) => [FreeLarge(t, a)]
  }

  ghost function After(p: Pool, t: Tid, job: Job, found: bool): Pc {
    match job
    case Search(i, size) => Leaves(BucketLock(i), if found then Outside else Wants(Grow(i, size)))
    case Grow(i, _) => Leaves(PageLock, Wants(List(i)))
    case List(i) => Leaves(BucketLock(i), Outside)
    case GiveBack(i) =>
      if t !in p.phase || p.phase[t] == Idle then Leaves(BucketLock(i), Outside)
      else if p.phase[t].Reverting? then Leaves(BucketLock(i), Wants(GiveSpan(i)))
      else Has(job)
    case GiveSpan(i) => Leaves(PageLock, Wants(GiveBack(i)))
    case TakeLarge(_) => Leaves(PageLock, Outside)
    case GiveLarge(_) => Leaves(PageLock, Outside)
  }

  ghost predicate CanDo(s: Sys, st: Step)
    requires PoolInv(s.pool)
  {
    match st
    case Local(ev) =>
      (ev.Start? || ev.AllocCached? || ev.FreeSmall?) && Can(s.pool, ev) && IsOutside(s, ev.t)
    case CallFetch(t, size) => IsOutside(s, t) && CacheEmpty(s.pool, t, size) && RoundUp(size) > 0
    case CallReturn(t, i, size) => IsOutside(s, t) && Can(s.pool, ReturnList(t, i, size))
    case CallTakeLarge(t, size) => IsOutside(s, t) && MAX_BYTES < size < WORD && RoundUp(size) / PAGE_BYTES > 0
    case CallGiveLarge(t, a) => IsOutside(s, t) && LargeLive(s.pool, a) && !Claimed(s, a)
    case Acquire(t) => t in s.pc && s.pc[t].Wants? && LockOf(s.pc[t].job) !in s.held
    case Work(t, cnt, e) =>
      t in s.pc && s.pc[t].Has? && forall ev :: ev in SectionEvent(s, t, s.pc[t].job, cnt, e) ==> Can(s.pool, ev)
    case Unlock(t) => t in s.pc && s.pc[t].Leaves?
  }

  ghost function AfterEvents(p: Pool, evs: seq<Event>): Pool
    requires PoolInv(p) && |evs| <= 1 && forall ev :: ev in evs ==> Can(p, ev)
  {
    if evs == [] then p else Next(p, evs[0])
  }

  ghost function Do(s: Sys, st: Step): Sys
    requires PoolInv(s.pool) && CanDo(s, st)
  {
    match st
    case Local(ev) => s.(pool := Next(s.pool, ev), pc := s.pc[ev.t := Outside])
    case CallFetch(t, size) => s.(pc := s.pc[t := Wants(Search(Index(size), size))])
    case CallReturn(t, i, size) => s.(pool := Next(s.pool, ReturnList(t, i, size)), pc := s.pc[t := Wants(GiveBack(i))])
    case CallTakeLarge(t, size) => s.(pc := s.pc[t := Wants(TakeLarge(size))])
    case CallGiveLarge(t, a) => s.(pc := s.pc[t := Wants(GiveLarge(a))])
    case Acquire(t) => s.(pc := s.pc[t := Has(s.pc[t].job)], held := s.held[LockOf(s.pc[t].job) := t])
    case Work(t, cnt, e) =>
      var evs := SectionEvent(s, t, s.pc[t].job, cnt, e);
      var p := AfterEvents(s.pool, evs);
      Sys(p, s.pc[t := After(p, t, s.pc[t].job, evs != [])], s.held)
    case Unlock(t) => s.(pc := s.pc[t := s.pc[t].after], held := s.held - {s.pc[t].lock})
  }

  // ---------- the invariant ----------

  /** What the pool must look like for a thread that wants or does this job. */
  ghost predicate JobOk(p: Pool, t: Tid, job: Job) {
    match job
    case Search(i, size) => CacheEmpty(p, t, size) && i == Index(size) && RoundUp(size) > 0
    case Grow(i, size) => CacheEmpty(p, t, size) && i == Index(size) && RoundUp(size) > 0
    case List(i) => t in p.phase && p.phase[t].Carving? && FitsBucket(p.phase[t].size, i)
    case GiveBack(i) => t in p.phase && p.phase[t].Returning? && FitsBucket(p.phase[t].size, i)
    case GiveSpan(i) => t in p.phase && p.phase[t].Reverting? && FitsBucket(p.phase[t].size, i)
    case TakeLarge(size) => NotBusy(p, t) && MAX_BYTES < size < WORD && RoundUp(size) / PAGE_BYTES > 0
    case GiveLarge(a) => NotBusy(p, t) && LargeLive(p, a)
  }

  // Blocks of this size are bucket i's.
  ghost predicate FitsBucket(size: nat, i: nat) {
    size <= MAX_BYTES && Index(size) == i
  }

  ghost predicate NotBusy(p: Pool, t: Tid) {
    t in p.phase ==> p.phase[t] == Idle
  }

  ghost predicate PcOk(p: Pool, t: Tid, pc: Pc) {
    match pc
    case Outside => NotBusy(p, t)
    case Wants(job) => JobOk(p, t, job)
    case Has(job) => JobOk(p, t, job)
    case Leaves(_, Outside) => NotBusy(p, t)
    case Leaves(_, Wants(job)) => JobOk(p, t, job)
    case _ => false
  }

  /** The lock a thread holds by where it is in the code. */
  ghost predicate HoldsAt(pc: Pc, l: Lock) {
    (pc.Has? && LockOf(pc.job) == l) || (pc.Leaves? && pc.lock == l)
  }

  /** A mutex is locked exactly by the thread inside its section. */
  ghost predicate LocksOk(pc: map<Tid, Pc>, held: map<Lock, Tid>) {
    && (forall l :: l in held ==> held[l] in pc && HoldsAt(pc[held[l]], l))
    && (forall t, l :: t in pc && HoldsAt(pc[t], l) ==> l in held && held[l] == t)
  }

  ghost predicate OneClaim(pc: map<Tid, Pc>) {
    forall t, u, a :: t in pc && u in pc && t != u && Gives(pc[t], a) ==> !Gives(pc[u], a)
  }

  ghost predicate SysInv(s: Sys) {
    && PoolInv(s.pool) && LocksOk(s.pc, s.held) && OneClaim(s.pc)
    && (forall t :: t in s.pc ==> PcOk(s.pool, t, s.pc[t]))
    && (forall t :: t in s.pool.phase ==> t in s.pc)
  }

  // ---------- what a step of one thread leaves to the others ----------

  lemma JobOkStays(p: Pool, ev: Event, u: Tid, job: Job)
    requires PoolInv(p) && Can(p, ev) && u != ev.t && JobOk(p, u, job)
    requires ev.FreeLarge? ==> job != GiveLarge(ev.a)
    ensures JobOk(Next(p, ev), u, job)
  {
    hide PoolInv, Can, Next, LargeLive, Index, RoundUp;
    PhasesKept(p, ev, u);
    MemoryPool.StepKeeps(p, ev);
    CentralSizeOf(Next(p, ev));
    if job.GiveLarge? { LargeLiveStays(p, ev, job.a); }
  }

  lemma PcOkStays(p: Pool, ev: Event, u: Tid, pc: Pc)
    requires PoolInv(p) && Can(p, ev) && u != ev.t && PcOk(p, u, pc)
    requires ev.FreeLarge? ==> !Gives(pc, ev.a)
    ensures PcOk(Next(p, ev), u, pc)
  {
    hide PoolInv, Can, Next, JobOk;
    PhasesKept(p, ev, u);
    match pc
    case Outside =>
    case Wants(job) => JobOkStays(p, ev, u, job);
    case Has(job) => JobOkStays(p, ev, u, job);
    case Leaves(_, Outside) =>
    case Leaves(_, Wants(job)) => JobOkStays(p, ev, u, job);
    case _ =>
  }

  // ---------- sections ----------

  /** The system has pages for the allocation that this thread is about to make. */
  ghost predicate Supplied(p: Pool, job: Job, e: Supply) {
    && (job.Grow? ==> RoundUp(job.size) > 0 && SupplyOk(p.page, NumMovePage(RoundUp(job.size)), e))
    && (job.TakeLarge? ==> SupplyOk(p.page, RoundUp(job.size) / PAGE_BYTES, e))
  }

  /** Inside a section there is always something to do. */
  lemma SectionReady(s: Sys, t: Tid, e: Supply)
    requires SysInv(s) && t in s.pc && s.pc[t].Has? && Supplied(s.pool, s.pc[t].job, e)
    ensures CanDo(s, Work(t, 1, e))
  {
    hide PoolInv, LocksOk, OneClaim, Index, RoundUp, NumMovePage, SupplyOk;
    assert PcOk(s.pool, t, s.pc[t]);
    CentralSizeOf(s.pool);
    var job := s.pc[t].job;
    if job.GiveLarge? { LargeCanGo(s.pool, t, job.a); }
  }

  // A section leaves its own thread ready for what comes next.
  lemma SectionLeaves(s: Sys, t: Tid, cnt: nat, e: Supply)
    requires SysInv(s) && CanDo(s, Work(t, cnt, e))
    ensures PcOk(Do(s, Work(t, cnt, e)).pool, t, Do(s, Work(t, cnt, e)).pc[t])
  {
    hide PoolInv, LocksOk, OneClaim, Next, Can, Index, RoundUp, NumMovePage, SupplyOk, LargeLive, FitsBucket;
    assert PcOk(s.pool, t, s.pc[t]);
    var job := s.pc[t].job;
    var evs := SectionEvent(s, t, job, cnt, e);
    if evs != [] {
      assert evs[0] in evs;
      StepMoves(s.pool, evs[0]);
      if job.Grow? { RoundedFits(s.pool, t, job.size, e); }
    }
  }

  lemma RoundedFits(p: Pool, t: Tid, size: nat, e: Supply)
    requires PoolInv(p) && Can(p, AllocSpan(t, size, e))
    ensures FitsBucket(RoundUp(size), Index(size))
  {
    hide PoolInv, Index, RoundUp, NumMovePage, SupplyOk;
    RoundUpIsLeastClass(size, 0);
  }

  lemma ReturnedFits(p: Pool, t: Tid, i: nat, size: nat)
    requires PoolInv(p) && Can(p, ReturnList(t, i, size))
    ensures FitsBucket(size, i)
  {
    hide PoolInv, Index;
  }

  // ---------- every step keeps the invariant ----------

  // What a pool event of thread t means for all others.
  lemma OthersStay(s: Sys, ev: Event)
    requires SysInv(s) && Can(s.pool, ev) && (ev.FreeLarge? ==> ev.t in s.pc && Gives(s.pc[ev.t], ev.a))
    ensures PoolInv(Next(s.pool, ev))
    ensures forall u :: u in s.pc && u != ev.t ==> PcOk(Next(s.pool, ev), u, s.pc[u])
    ensures forall u :: u in Next(s.pool, ev).phase && u != ev.t ==> u in s.pc
  {
    hide PoolInv, LocksOk, Can, Next, PcOk, Gives;
    MemoryPool.StepKeeps(s.pool, ev);
    forall u | u in s.pc && u != ev.t ensures PcOk(Next(s.pool, ev), u, s.pc[u]) {
      PcOkStays(s.pool, ev, u, s.pc[u]);
    }
    forall u | u in Next(s.pool, ev).phase && u != ev.t ensures u in s.pc {
      PhasesKept(s.pool, ev, u);
    }
  }

  lemma SamePool(s: Sys, t: Tid, pc: Pc, held: map<Lock, Tid>)
    requires SysInv(s) && PcOk(s.pool, t, pc)
    requires LocksOk(s.pc[t := pc], held) && OneClaim(s.pc[t := pc])
    ensures SysInv(Sys(s.pool, s.pc[t := pc], held))
  {
    hide PoolInv, LocksOk, OneClaim, PcOk;
  }

  lemma PoolMoves(s: Sys, ev: Event, pc: Pc)
    requires SysInv(s) && Can(s.pool, ev) && (ev.FreeLarge? ==> ev.t in s.pc && Gives(s.pc[ev.t], ev.a))
    requires PcOk(Next(s.pool, ev), ev.t, pc) && LocksOk(s.pc[ev.t := pc], s.held) && OneClaim(s.pc[ev.t := pc])
    ensures SysInv(Sys(Next(s.pool, ev), s.pc[ev.t := pc], s.held))
  {
    hide PoolInv, LocksOk, OneClaim, PcOk, Can, Next, Gives;
    OthersStay(s, ev);
  }

  // A thread that holds no lock goes somewhere it holds none.
  lemma NoLockMoves(pc: map<Tid, Pc>, held: map<Lock, Tid>, t: Tid, next: Pc)
    requires LocksOk(pc, held) && (t in pc ==> pc[t] == Outside) && (next == Outside || next.Wants?)
    ensures LocksOk(pc[t := next], held)
  {
    if t in pc { assert forall l :: !HoldsAt(pc[t], l); }
    assert forall l :: !HoldsAt(next, l);
  }

  lemma NoClaimMoves(pc: map<Tid, Pc>, t: Tid, next: Pc)
    requires OneClaim(pc)
    requires forall a :: Gives(next, a) ==> t in pc && Gives(pc[t], a)
    ensures OneClaim(pc[t := next])
  {
    hide Gives;
  }

  lemma AcquireKeeps(s: Sys, t: Tid)
    requires SysInv(s) && CanDo(s, Acquire(t))
    ensures SysInv(Do(s, Acquire(t)))
  {
    hide PoolInv, JobOk;
    assert PcOk(s.pool, t, s.pc[t]);
    NoClaimMoves(s.pc, t, Has(s.pc[t].job));
    var pc', held' := s.pc[t := Has(s.pc[t].job)], s.held[LockOf(s.pc[t].job) := t];
    assert LocksOk(pc', held') by { hide PcOk, OneClaim; }
    hide LocksOk, OneClaim;
    SamePool(s, t, Has(s.pc[t].job), held');
  }

  lemma UnlockKeeps(s: Sys, t: Tid)
    requires SysInv(s) && CanDo(s, Unlock(t))
    ensures SysInv(Do(s, Unlock(t)))
  {
    hide PoolInv, JobOk;
    assert PcOk(s.pool, t, s.pc[t]);
    NoClaimMoves(s.pc, t, s.pc[t].after);
    var pc', held' := s.pc[t := s.pc[t].after], s.held - {s.pc[t].lock};
    assert LocksOk(pc', held') by { hide PcOk, OneClaim; UnlockLocks(s.pc, s.held, t); }
    hide LocksOk, OneClaim;
    SamePool(s, t, s.pc[t].after, held');
  }

  lemma UnlockLocks(pc: map<Tid, Pc>, held: map<Lock, Tid>, t: Tid)
    requires LocksOk(pc, held) && t in pc && pc[t].Leaves? && (pc[t].after == Outside || pc[t].after.Wants?)
    ensures LocksOk(pc[t := pc[t].after], held - {pc[t].lock})
  {
    var lock, pc', held' := pc[t].lock, pc[t := pc[t].after], held - {pc[t].lock};
    assert HoldsAt(pc[t], lock);
    forall l | l in held' ensures held'[l] in pc' && HoldsAt(pc'[held'[l]], l) {
      assert HoldsAt(pc[held[l]], l);
      assert held[l] != t;
    }
    forall u, l | u in pc' && HoldsAt(pc'[u], l) ensures l in held' && held'[l] == u {
      assert u != t && HoldsAt(pc[u], l);
      assert held[lock] == t && held[l] == u;
    }
  }

  // A section ends still holding its lock.
  lemma AfterHolds(p: Pool, t: Tid, job: Job, found: bool)
    ensures forall l :: HoldsAt(After(p, t, job, found), l) <==> l == LockOf(job)
    ensures forall a :: !Gives(After(p, t, job, found), a) || job == GiveLarge(a)
  {
  }

  lemma SameLockMoves(pc: map<Tid, Pc>, held: map<Lock, Tid>, t: Tid, next: Pc)
    requires LocksOk(pc, held) && t in pc && pc[t].Has?
    requires forall l :: HoldsAt(next, l) <==> l == LockOf(pc[t].job)
    ensures LocksOk(pc[t := next], held)
  {
    assert forall l :: HoldsAt(pc[t], l) <==> l == LockOf(pc[t].job);
    hide HoldsAt;
  }

  lemma WorkKeeps(s: Sys, t: Tid, cnt: nat, e: Supply)
    requires SysInv(s) && CanDo(s, Work(t, cnt, e))
    ensures SysInv(Do(s, Work(t, cnt, e)))
  {
    hide PoolInv, Can, Next, LocksOk, OneClaim, After, PcOk, Index, RoundUp, NumMovePage, SupplyOk;
    var job := s.pc[t].job;
    var evs := SectionEvent(s, t, job, cnt, e);
    var p := AfterEvents(s.pool, evs);
    var next := After(p, t, job, evs != []);
    SectionLeaves(s, t, cnt, e);
    AfterHolds(p, t, job, evs != []);
    SameLockMoves(s.pc, s.held, t, next);
    NoClaimMoves(s.pc, t, next);
    if evs == [] {
      SamePool(s, t, next, s.held);
    } else {
      assert evs[0] in evs && evs[0].t == t;
      PoolMoves(s, evs[0], next);
    }
  }

  lemma LocalKeeps(s: Sys, ev: Event)
    requires SysInv(s) && CanDo(s, Local(ev))
    ensures SysInv(Do(s, Local(ev)))
  {
    hide PoolInv, Can, Next, LocksOk, OneClaim, PcOk;
    NotBusyOutside(s, ev.t);
    StepMoves(s.pool, ev);
    NoLockMoves(s.pc, s.held, ev.t, Outside);
    NoClaimMoves(s.pc, ev.t, Outside);
    OutsideOk(Next(s.pool, ev), ev.t);
    PoolMoves(s, ev, Outside);
  }

  lemma OutsideOk(p: Pool, t: Tid)
    requires NotBusy(p, t)
    ensures PcOk(p, t, Outside)
  {
  }

  lemma NotBusyOutside(s: Sys, t: Tid)
    requires SysInv(s) && IsOutside(s, t)
    ensures NotBusy(s.pool, t)
  {
    hide PoolInv, LocksOk, OneClaim;
    if t in s.pc { assert PcOk(s.pool, t, s.pc[t]); }
  }

  lemma CallKeeps(s: Sys, t: Tid, job: Job)
    requires SysInv(s) && IsOutside(s, t) && JobOk(s.pool, t, job) && (job.GiveLarge? ==> !Claimed(s, job.a))
    ensures SysInv(s.(pc := s.pc[t := Wants(job)]))
  {
    hide PoolInv, LocksOk, JobOk;
    NoLockMoves(s.pc, s.held, t, Wants(job));
    assert OneClaim(s.pc[t := Wants(job)]);
    hide OneClaim;
    SamePool(s, t, Wants(job), s.held);
  }

  lemma CallReturnKeeps(s: Sys, t: Tid, i: nat, size: nat)
    requires SysInv(s) && CanDo(s, CallReturn(t, i, size))
    ensures SysInv(Do(s, CallReturn(t, i, size)))
  {
    hide PoolInv, Can, Next, LocksOk, OneClaim, FitsBucket;
    StepMoves(s.pool, ReturnList(t, i, size));
    ReturnedFits(s.pool, t, i, size);
    NoLockMoves(s.pc, s.held, t, Wants(GiveBack(i)));
    NoClaimMoves(s.pc, t, Wants(GiveBack(i)));
    PoolMoves(s, ReturnList(t, i, size), Wants(GiveBack(i)));
  }

  /** Every lock, every unlock and every section of every thread keeps the invariant. */
  lemma DoKeeps(s: Sys, st: Step)
    requires SysInv(s) && CanDo(s, st)
    ensures SysInv(Do(s, st))
  {
    hide PoolInv, LocksOk, OneClaim, PcOk, LargeLive, Index, RoundUp, NumMovePage, SupplyOk, Claimed;
    match st
    case Local(ev) => LocalKeeps(s, ev);
    case CallFetch(t, size) => CallKeeps(s, t, Search(Index(size), size));
    case CallReturn(t, i, size) => CallReturnKeeps(s, t, i, size);
    case CallTakeLarge(t, size) => NotBusyOutside(s, t); CallKeeps(s, t, TakeLarge(size));
    case CallGiveLarge(t, a) => NotBusyOutside(s, t); CallKeeps(s, t, GiveLarge(a));
    case Acquire(t) => AcquireKeeps(s, t);
    case Work(t, cnt, e) => WorkKeeps(s, t, cnt, e);
    case Unlock(t) => UnlockKeeps(s, t);
  }

  function InitSys(): Sys {
    Sys(InitPool(), map[], map[])
  }

  lemma InitSysInv()
    ensures SysInv(InitSys())
  {
    InitPoolInv();
    hide PoolInv;
  }

  // ---------- runs ----------

  ghost predicate Runs(s: Sys, steps: seq<Step>, s': Sys)
    requires SysInv(s)
    decreases |steps|
  {
    if steps == [] then s' == s
    else CanDo(s, steps[0]) && (DoKeeps(s, steps[0]); Runs(Do(s, steps[0]), steps[1..], s'))
  }

  lemma {:induction false} RunKeeps(s: Sys, steps: seq<Step>, s': Sys)
    requires SysInv(s) && Runs(s, steps, s')
    ensures SysInv(s')
    decreases |steps|
  {
    hide PoolInv, LocksOk, OneClaim, PcOk, CanDo, Do;
    if steps != [] {
      DoKeeps(s, steps[0]);
      RunKeeps(Do(s, steps[0]), steps[1..], s');
    }
  }

  /** s is reached from the empty pool with no thread inside by these steps. */
  ghost predicate Reaches(steps: seq<Step>, s: Sys) {
    InitSysInv();
    Runs(InitSys(), steps, s)
  }

  lemma ReachesInv(steps: seq<Step>, s: Sys)
    requires Reaches(steps, s)
    ensures SysInv(s)
  {
    hide SysInv, Runs;
    InitSysInv();
    RunKeeps(InitSys(), steps, s);
  }

  /** In every run from the empty pool a thread that waits for a lock holds none, each lock has
      one holder, and the holder is not waiting. */
  lemma NobodyHoldsAndWaits(steps: seq<Step>, s: Sys, t: Tid, l: Lock)
    requires Reaches(steps, s)
    ensures SysInv(s)
    ensures t in s.pc && s.pc[t].Wants? && l in s.held ==> s.held[l] != t
    ensures l in s.held ==> s.held[l] in s.pc && !s.pc[s.held[l]].Wants?
  {
    ReachesInv(steps, s);
    hide PoolInv, OneClaim, PcOk, Reaches;
  }

  /** The thread can take its next step, given pages if it is about to ask for some. */
  ghost predicate CanMove(s: Sys, t: Tid, e: Supply)
    requires PoolInv(s.pool) && t in s.pc
  {
    CanDo(s, Acquire(t)) || CanDo(s, Unlock(t))
    || (s.pc[t].Has? && (Supplied(s.pool, s.pc[t].job, e) ==> CanDo(s, Work(t, 1, e))))
  }

  lemma MovesOrWaits(s: Sys, t: Tid, e: Supply)
    requires SysInv(s) && t in s.pc && s.pc[t] != Outside
    ensures CanMove(s, t, e) ||
      (s.pc[t].Wants? && var l := LockOf(s.pc[t].job); l in s.held && s.held[l] in s.pc && CanMove(s, s.held[l], e))
  {
    if s.pc[t].Wants? && LockOf(s.pc[t].job) in s.held {
      HolderMoves(s, LockOf(s.pc[t].job), e);
    } else if s.pc[t].Has? && Supplied(s.pool, s.pc[t].job, e) {
      SectionReady(s, t, e);
    }
  }

  lemma HolderMoves(s: Sys, l: Lock, e: Supply)
    requires SysInv(s) && l in s.held
    ensures s.held[l] in s.pc && CanMove(s, s.held[l], e)
  {
    hide PoolInv, PcOk, OneClaim, Supplied;
    var u := s.held[l];
    assert HoldsAt(s.pc[u], l);
    if s.pc[u].Has? && Supplied(s.pool, s.pc[u].job, e) {
      SectionReady(s, u, e);
    }
  }

  /** No deadlock in any run from the empty pool: a thread that is not outside can move, or it
      waits for a lock whose holder can move. */
  lemma NoDeadlock(steps: seq<Step>, s: Sys, t: Tid, e: Supply)
    requires Reaches(steps, s) && t in s.pc && s.pc[t] != Outside
    ensures SysInv(s)
    ensures CanMove(s, t, e) ||
      (s.pc[t].Wants? && var l := LockOf(s.pc[t].job); l in s.held && s.held[l] in s.pc && CanMove(s, s.held[l], e))
  {
    hide PoolInv, Reaches, CanMove;
    ReachesInv(steps, s);
    MovesOrWaits(s, t, e);
  }
}
