/**
 What a call into the allocator comes to, whatever the other threads do meanwhile: each call
 does what it was made for, once, within a bounded number of its thread's own steps; and what a
 lock protects changes only under that lock.
 */
module PoolCalls {
  import opened SizeClasses
  import opened PageModel
  import opened Blocks
  import opened MemoryPool
  import opened PoolTheorems
  import opened PoolSpans
  import opened PageWrites
  import opened PoolLocks

  function ThreadOf(st: Step): Tid {
    match st
    case Local(ev) => ev.t
    case CallFetch(t, _) => t
    case CallReturn(t, _, _) => t
    case CallTakeLarge(t, _) => t
    case CallGiveLarge(t, _) => t
    case Acquire(t) => t
    case Work(t, _, _) => t
    case Unlock(t) => t
  }

  /** The thread goes on with the call it is in. */
  predicate GoesOn(st: Step) {
    st.Acquire? || st.Work? || st.Unlock?
  }

  /** A step of another thread leaves this thread where it is, with its phase and its cache. */
  lemma OthersLeaveAlone(s: Sys, st: Step, t: Tid)
    requires SysInv(s) && CanDo(s, st) && ThreadOf(st) != t
    ensures var s' := Do(s, st);
      SameFor(s.pc, s'.pc, t) && SameFor(s.pool.phase, s'.pool.phase, t) && SameFor(s.pool.caches, s'.pool.caches, t)
  {
    hide PoolInv, LocksOk, OneClaim, PcOk, Next, Can, Index, RoundUp, PoolLocks.After;
    match st
    case Local(ev) => PhasesKept(s.pool, ev, t);
    case CallReturn(u, i, size) => PhasesKept(s.pool, ReturnList(u, i, size), t);
    case Work(u, cnt, e) =>
      var evs := SectionEvent(s, u, s.pc[u].job, cnt, e);
      if evs != [] {
        assert evs[0] in evs && evs[0].t == u;
        PhasesKept(s.pool, evs[0], t);
      }
    case _ =>
  }

  // ---------- which calls can be made ----------

  /** A thread outside the allocator can ask for any size: its first small request gives it a
      cache, a small one is served from the cache list exactly when that has a block and goes to
      CentralCache otherwise, and a large one is refused only in the last 4095 sizes. */
  lemma EveryRequestStarts(s: Sys, t: Tid, size: nat)
    requires SysInv(s) && IsOutside(s, t) && 1 <= size < WORD
    ensures t !in s.pool.phase ==> CanDo(s, Local(Start(t)))
    ensures t in s.pool.phase && size <= MAX_BYTES ==>
      && t in s.pool.caches && Index(size) < |s.pool.caches[t]|
      && (CanDo(s, Local(AllocCached(t, size))) <==> s.pool.caches[t][Index(size)] != [])
      && (CanDo(s, CallFetch(t, size)) <==> s.pool.caches[t][Index(size)] == [])
      && CanDo(s, CallReturn(t, Index(size), size))
    ensures size > MAX_BYTES ==> (CanDo(s, CallTakeLarge(t, size)) <==> size <= WORD - PAGE_BYTES)
  {
    hide PoolInv, LocksOk, OneClaim, PcOk, Index, RoundUp;
    NotBusyOutside(s, t);
    CentralSizeOf(s.pool);
    if t in s.pool.phase { CacheOfPhase(s.pool, t); }
    if size <= MAX_BYTES {
      BucketExistsIffNonzero(size);
      RoundUpIsLeastClass(size, 0);
    } else {
      RoundsToNoPageIff(size);
    }
  }

  /** ... and can give back any live block of at most 128 pages: a small one if it has a cache, a
      large one unless another thread is doing so. */
  lemma EveryFreeStarts(s: Sys, t: Tid, a: Addr)
    requires SysInv(s) && IsOutside(s, t) && IsLive(s.pool, a)
    ensures s.pool.place[a].span in s.pool.page.spans
    ensures var sp := s.pool.page.spans[s.pool.place[a].span];
      if sp.blockSize <= MAX_BYTES then CanDo(s, Local(FreeSmall(t, a))) <==> t in s.pool.phase
      else CanDo(s, CallGiveLarge(t, a)) <==> sp.cnt <= MAX_PAGES && !Claimed(s, a)
  {
    hide PoolInv, LocksOk, OneClaim, PcOk, Index, RoundUp, Claimed;
    NotBusyOutside(s, t);
    BlockCanBeFreedIff(s.pool, t, a);
    LookupFindsSpan(s.pool, a);
    LiveRole(s.pool, a);
  }

  lemma LiveRole(p: Pool, a: Addr)
    requires PoolInv(p) && IsLive(p, a)
    ensures p.place[a].span in p.role && p.place[a].span in p.page.spans
    ensures p.role[p.place[a].span] == Big <==> p.page.spans[p.place[a].span].blockSize > MAX_BYTES
  {
    hide Inv, CentralOk, CountsOk, ListsOk, BlocksOf, RoundUp;
  }

  // ---------- errands ----------

  /** What a thread inside the allocator is there for: a block of this size (the exact size of a
      large one), the blocks it has still to give back, a large block to release. */
  datatype Errand = Nothing | Fetching(size: nat) | HandingBack(chain: seq<Addr>) | Dropping(a: Addr)

  ghost function PhaseOf(p: Pool, t: Tid): Phase {
    if t in p.phase then p.phase[t] else Idle
  }

  ghost function JobErrand(p: Pool, t: Tid, job: Job): Errand {
    match job
    case Search(_, size) => Fetching(RoundUp(size))
    case Grow(_, size) => Fetching(RoundUp(size))
    case List(_) => Fetching(if PhaseOf(p, t).Carving? then PhaseOf(p, t).size else 0)
    case GiveBack(_) => HandingBack(ChainOf(PhaseOf(p, t)))
    case GiveSpan(_) => HandingBack(ChainOf(PhaseOf(p, t)))
    case TakeLarge(size) => Fetching(size)
    case GiveLarge(a) => Dropping(a)
  }

  ghost function PcErrand(p: Pool, t: Tid, pc: Pc): Errand {
    match pc
    case Wants(job) => JobErrand(p, t, job)
    case Has(job) => JobErrand(p, t, job)
    case Leaves(_, Wants(job)) => JobErrand(p, t, job)
    case _ => Nothing
  }

  ghost function ErrandOf(s: Sys, t: Tid): Errand {
    if t in s.pc then PcErrand(s.pool, t, s.pc[t]) else Nothing
  }

  /** Inside the allocator a thread is handed a block of this size, gives a block back, or
      releases a large one. */
  datatype Deed = Got(size: nat) | GaveBack(a: Addr) | Dropped(a: Addr)

  ghost function DeedOf(p: Pool, ev: Event): seq<Deed>
    requires PoolInv(p) && Can(p, ev)
  {
    hide PoolInv, Index, RoundUp, SupplyOk, FirstFree;
    match ev
    case AllocListed(_, _, _) => [Got(Served(p, ev))]
    case AllocCarved(_, _) => [Got(Served(p, ev))]
    case AllocLarge(_, _, _) => [Got(Served(p, ev))]
    case ReturnBlock(t) => [GaveBack(p.phase[t].chain[0])]
    case FreeLarge(_, a) => [Dropped(a)]
    case _ => []
  }

  ghost function DeedsIn(p: Pool, evs: seq<Event>): seq<Deed>
    requires PoolInv(p) && |evs| <= 1 && forall ev :: ev in evs ==> Can(p, ev)
  {
    hide PoolInv, Can;
    if evs == [] then [] else DeedOf(p, evs[0])
  }

  ghost function StepDeeds(s: Sys, st: Step, t: Tid): seq<Deed>
    requires PoolInv(s.pool) && CanDo(s, st)
  {
    if st.Work? && st.t == t then DeedsIn(s.pool, SectionEvent(s, t, s.pc[t].job, st.cnt, st.e)) else []
  }

  function GiveEach(chain: seq<Addr>): seq<Deed> {
    seq(|chain|, i requires 0 <= i < |chain| => GaveBack(chain[i]))
  }

  /** What is to be done for an errand, and nothing else. */
  function Owes(errand: Errand): seq<Deed> {
    match errand
    case Nothing => []
    case Fetching(size) => [Got(size)]
    case HandingBack(chain) => GiveEach(chain)
    case Dropping(a) => [Dropped(a)]
  }

  // The phase of a thread inside is what its job needs.
  lemma JobOf(s: Sys, t: Tid)
    requires SysInv(s) && t in s.pc && s.pc[t].Has?
    ensures JobOk(s.pool, t, s.pc[t].job)
  {
    hide PoolInv, LocksOk, OneClaim, JobOk;
    assert PcOk(s.pool, t, s.pc[t]);
  }

  lemma FetchWork(s: Sys, t: Tid, cnt: nat, e: Supply)
    requires SysInv(s) && CanDo(s, Work(t, cnt, e))
    requires s.pc[t].job.Search? || s.pc[t].job.Grow? || s.pc[t].job.List? || s.pc[t].job.TakeLarge?
    ensures Owes(ErrandOf(s, t)) == StepDeeds(s, Work(t, cnt, e), t) + Owes(ErrandOf(Do(s, Work(t, cnt, e)), t))
  {
    hide PoolInv, LocksOk, OneClaim, PcOk, Next, Can, Index, RoundUp, NumMovePage, SupplyOk, FitsBucket;
    JobOf(s, t);
    var evs := SectionEvent(s, t, s.pc[t].job, cnt, e);
    if evs != [] {
      assert evs[0] in evs;
      StepMoves(s.pool, evs[0]);
    }
  }

  lemma ReturnWork(s: Sys, t: Tid, cnt: nat, e: Supply)
    requires SysInv(s) && CanDo(s, Work(t, cnt, e)) && (s.pc[t].job.GiveBack? || s.pc[t].job.GiveSpan?)
    ensures Owes(ErrandOf(s, t)) == StepDeeds(s, Work(t, cnt, e), t) + Owes(ErrandOf(Do(s, Work(t, cnt, e)), t))
  {
    hide PoolInv, LocksOk, OneClaim, PcOk, Next, Can, Index, RoundUp, FitsBucket;
    JobOf(s, t);
    var evs := SectionEvent(s, t, s.pc[t].job, cnt, e);
    assert evs[0] in evs;
    StepMoves(s.pool, evs[0]);
  }

  lemma DropWork(s: Sys, t: Tid, cnt: nat, e: Supply)
    requires SysInv(s) && CanDo(s, Work(t, cnt, e)) && s.pc[t].job.GiveLarge?
    ensures Owes(ErrandOf(s, t)) == StepDeeds(s, Work(t, cnt, e), t) + Owes(ErrandOf(Do(s, Work(t, cnt, e)), t))
  {
    hide PoolInv, LocksOk, OneClaim, PcOk, Next, Can, Index, RoundUp, LargeLive;
  }

  lemma SameErrand(s: Sys, s': Sys, t: Tid)
    requires SameFor(s.pc, s'.pc, t) && SameFor(s.pool.phase, s'.pool.phase, t)
    ensures ErrandOf(s', t) == ErrandOf(s, t)
  {
    hide RoundUp;
  }

  lemma LockErrand(s: Sys, st: Step)
    requires SysInv(s) && CanDo(s, st) && (st.Acquire? || st.Unlock?)
    ensures ErrandOf(Do(s, st), st.t) == ErrandOf(s, st.t)
  {
    hide PoolInv, LocksOk, OneClaim, JobErrand;
    assert PcOk(s.pool, st.t, s.pc[st.t]);
  }

  /** What a thread does in a step of its call is exactly what its errand loses by it; and no step
      of another thread touches its errand. */
  lemma StepDoesItsErrand(s: Sys, st: Step, t: Tid)
    requires SysInv(s) && CanDo(s, st) && (ThreadOf(st) == t ==> GoesOn(st))
    ensures Owes(ErrandOf(s, t)) == StepDeeds(s, st, t) + Owes(ErrandOf(Do(s, st), t))
  {
    hide PoolInv, LocksOk, OneClaim, PcOk, Can, Do, ErrandOf, Owes, DeedsIn, SectionEvent, LargeLive, Claimed;
    if ThreadOf(st) != t {
      OthersLeaveAlone(s, st, t);
      SameErrand(s, Do(s, st), t);
    } else if st.Work? {
      if s.pc[t].job.GiveBack? || s.pc[t].job.GiveSpan? {
        ReturnWork(s, t, st.cnt, st.e);
      } else if s.pc[t].job.GiveLarge? {
        DropWork(s, t, st.cnt, st.e);
      } else {
        FetchWork(s, t, st.cnt, st.e);
      }
    } else {
      LockErrand(s, st);
    }
  }

  /** The errand that a call is made for. */
  ghost function AskedFor(s: Sys, st: Step): Errand
    requires PoolInv(s.pool) && CanDo(s, st)
  {
    match st
    case CallFetch(_, size) => Fetching(RoundUp(size))
    case CallReturn(t, i, _) => HandingBack(s.pool.caches[t][i])
    case CallTakeLarge(_, size) => Fetching(size)
    case CallGiveLarge(_, a) => Dropping(a)
    case _ => Nothing
  }

  lemma CallBegins(s: Sys, st: Step)
    requires SysInv(s) && CanDo(s, st) && !GoesOn(st)
    ensures ErrandOf(Do(s, st), ThreadOf(st)) == AskedFor(s, st)
  {
    hide PoolInv, LocksOk, OneClaim, PcOk, Next, Index, RoundUp;
    if st.CallReturn? { StepMoves(s.pool, ReturnList(st.t, st.i, st.size)); }
  }

  // ---------- runs ----------

  ghost predicate NoCalls(steps: seq<Step>, t: Tid) {
    forall k :: 0 <= k < |steps| && ThreadOf(steps[k]) == t ==> GoesOn(steps[k])
  }

  lemma CallsLater(steps: seq<Step>, t: Tid)
    requires steps != [] && NoCalls(steps, t)
    ensures (ThreadOf(steps[0]) == t ==> GoesOn(steps[0])) && NoCalls(steps[1..], t)
  {
    hide GoesOn;
    forall k | 0 <= k < |steps[1..]| && ThreadOf(steps[1..][k]) == t ensures GoesOn(steps[1..][k]) {
      assert steps[1..][k] == steps[k + 1];
    }
  }

  /** All that thread t does in a run. */
  ghost function RunDeeds(s: Sys, steps: seq<Step>, t: Tid): seq<Deed>
    requires SysInv(s)
    decreases |steps|
  {
    if steps == [] || !CanDo(s, steps[0]) then []
    else (DoKeeps(s, steps[0]); StepDeeds(s, steps[0], t) + RunDeeds(Do(s, steps[0]), steps[1..], t))
  }

  lemma {:induction false} RunDoesItsErrand(s: Sys, steps: seq<Step>, s': Sys, t: Tid)
    requires SysInv(s) && PoolLocks.Runs(s, steps, s') && NoCalls(steps, t)
    ensures Owes(ErrandOf(s, t)) == RunDeeds(s, steps, t) + Owes(ErrandOf(s', t))
    decreases |steps|
  {
    hide PoolInv, LocksOk, OneClaim, PcOk, CanDo, Do, ErrandOf, Owes, StepDeeds, GoesOn;
    if steps != [] {
      DoKeeps(s, steps[0]);
      StepDoesItsErrand(s, steps[0], t);
      CallsLater(steps, t);
      RunDoesItsErrand(Do(s, steps[0]), steps[1..], s', t);
    }
  }

  lemma OutsideOwesNothing(s: Sys, t: Tid)
    requires IsOutside(s, t)
    ensures Owes(ErrandOf(s, t)) == []
  {
  }

  /** The call st is made in s, and its thread is outside again in s', with no further call of its
      own. */
  ghost predicate Returns(s: Sys, st: Step, steps: seq<Step>, s': Sys)
    requires SysInv(s) && CanDo(s, st)
  {
    hide SysInv, CanDo, Do;
    DoKeeps(s, st);
    && !GoesOn(st) && !st.Local?
    && PoolLocks.Runs(Do(s, st), steps, s') && NoCalls(steps, ThreadOf(st)) && IsOutside(s', ThreadOf(st))
  }

  /** Every call is carried out, in every interleaving: by the time its thread is outside again, an
      allocation that found no cached block has handed it exactly one block of its rounded size,
      a large one exactly one block of its size; a released list has given back each of its
      blocks once, in order; a large block has been released once. */
  lemma EveryCallIsCarriedOut(s: Sys, st: Step, steps: seq<Step>, s': Sys)
    requires SysInv(s) && CanDo(s, st) && Returns(s, st, steps, s')
    ensures SysInv(Do(s, st)) && RunDeeds(Do(s, st), steps, ThreadOf(st)) == Owes(AskedFor(s, st))
  {
    hide PoolInv, LocksOk, OneClaim, PcOk, CanDo, Do, ErrandOf, RunDeeds, PoolLocks.Runs, AskedFor, Owes;
    DoKeeps(s, st);
    CallBegins(s, st);
    RunDoesItsErrand(Do(s, st), steps, s', ThreadOf(st));
    OutsideOwesNothing(s', ThreadOf(st));
  }

  // ---------- how long a call takes ----------

  // Own steps from inside the job's section until the thread is outside, at most.
  ghost function JobSteps(p: Pool, t: Tid, job: Job): nat {
    match job
    case Search(_, _) => 8
    case Grow(_, _) => 5
    case List(_) => 2
    case GiveBack(_) => 6 * |ChainOf(PhaseOf(p, t))| + 2
    case GiveSpan(_) => 6 * |ChainOf(PhaseOf(p, t))| + 5
    case TakeLarge(_) => 2
    case GiveLarge(_) => 2
  }

  /** How many steps of its own a thread still needs, at most, to get outside. */
  ghost function StepsLeft(s: Sys, t: Tid): nat {
    if t !in s.pc then 0
    else
      match s.pc[t]
      case Wants(job) => 1 + JobSteps(s.pool, t, job)
      case Has(job) => JobSteps(s.pool, t, job)
      case Leaves(_, Outside) => 1
      case Leaves(_, Wants(job)) => 2 + JobSteps(s.pool, t, job)
      case _ => 0
  }

  lemma FetchTakesStep(s: Sys, t: Tid, cnt: nat, e: Supply)
    requires SysInv(s) && CanDo(s, Work(t, cnt, e))
    requires s.pc[t].job.Search? || s.pc[t].job.Grow? || s.pc[t].job.List? || s.pc[t].job.TakeLarge?
    ensures StepsLeft(Do(s, Work(t, cnt, e)), t) < StepsLeft(s, t)
  {
    hide PoolInv, LocksOk, OneClaim, PcOk, Next, Can, Index, RoundUp, NumMovePage, SupplyOk, FitsBucket;
  }

  lemma ReturnTakesStep(s: Sys, t: Tid, cnt: nat, e: Supply)
    requires SysInv(s) && CanDo(s, Work(t, cnt, e))
    requires s.pc[t].job.GiveBack? || s.pc[t].job.GiveSpan? || s.pc[t].job.GiveLarge?
    ensures StepsLeft(Do(s, Work(t, cnt, e)), t) < StepsLeft(s, t)
  {
    hide PoolInv, LocksOk, OneClaim, PcOk, Next, Can, Index, RoundUp, FitsBucket, LargeLive;
    JobOf(s, t);
    var evs := SectionEvent(s, t, s.pc[t].job, cnt, e);
    assert evs[0] in evs;
    StepMoves(s.pool, evs[0]);
  }

  lemma SameSteps(s: Sys, s': Sys, t: Tid)
    requires SameFor(s.pc, s'.pc, t) && SameFor(s.pool.phase, s'.pool.phase, t)
    ensures StepsLeft(s', t) == StepsLeft(s, t)
  {
  }

  lemma LockTakesStep(s: Sys, st: Step)
    requires SysInv(s) && CanDo(s, st) && (st.Acquire? || st.Unlock?)
    ensures StepsLeft(Do(s, st), st.t) < StepsLeft(s, st.t)
  {
    hide PoolInv, LocksOk, OneClaim, JobSteps;
    assert PcOk(s.pool, st.t, s.pc[st.t]);
  }

  lemma EveryStepCounts(s: Sys, st: Step, t: Tid)
    requires SysInv(s) && CanDo(s, st) && (ThreadOf(st) == t ==> GoesOn(st))
    ensures StepsLeft(Do(s, st), t) + (if ThreadOf(st) == t then 1 else 0) <= StepsLeft(s, t)
  {
    hide PoolInv, LocksOk, OneClaim, PcOk, Can, Do, StepsLeft, LargeLive, Claimed, SectionEvent;
    if ThreadOf(st) != t {
      OthersLeaveAlone(s, st, t);
      SameSteps(s, Do(s, st), t);
    } else if st.Work? {
      if s.pc[t].job.GiveBack? || s.pc[t].job.GiveSpan? || s.pc[t].job.GiveLarge? {
        ReturnTakesStep(s, t, st.cnt, st.e);
      } else {
        FetchTakesStep(s, t, st.cnt, st.e);
      }
    } else {
      LockTakesStep(s, st);
    }
  }

  function OwnSteps(steps: seq<Step>, t: Tid): nat {
    if steps == [] then 0 else (if ThreadOf(steps[0]) == t then 1 else 0) + OwnSteps(steps[1..], t)
  }

  lemma {:induction false} RunTakesSteps(s: Sys, steps: seq<Step>, s': Sys, t: Tid)
    requires SysInv(s) && PoolLocks.Runs(s, steps, s') && NoCalls(steps, t)
    ensures StepsLeft(s', t) + OwnSteps(steps, t) <= StepsLeft(s, t)
    decreases |steps|
  {
    hide PoolInv, LocksOk, OneClaim, PcOk, CanDo, Do, StepsLeft, GoesOn;
    if steps != [] {
      DoKeeps(s, steps[0]);
      EveryStepCounts(s, steps[0], t);
      CallsLater(steps, t);
      RunTakesSteps(Do(s, steps[0]), steps[1..], s', t);
    }
  }

  /** A call is over within a bounded number of its thread's own steps, however often other threads
      come between: 9 for a fetch, 3 for a large block, 6 for each block of a list given back and
      3 more. */
  lemma CallsAreBounded(s: Sys, st: Step, steps: seq<Step>, s': Sys, t: Tid)
    requires SysInv(s) && CanDo(s, st) && ThreadOf(st) == t && !GoesOn(st) && !st.Local?
    requires (DoKeeps(s, st); PoolLocks.Runs(Do(s, st), steps, s')) && NoCalls(steps, t)
    ensures OwnSteps(steps, t) <=
      match AskedFor(s, st)
      case Fetching(size) => if st.CallFetch? then 9 else 3
      case HandingBack(chain) => 6 * |chain| + 3
      case _ => 3
  {
    DoKeeps(s, st);
    CallTakes(s, st);
    hide PoolInv, LocksOk, OneClaim, PcOk, CanDo, Do, StepsLeft, GoesOn, AskedFor;
    RunTakesSteps(Do(s, st), steps, s', t);
  }

  lemma CallTakes(s: Sys, st: Step)
    requires SysInv(s) && CanDo(s, st) && !GoesOn(st) && !st.Local?
    ensures StepsLeft(Do(s, st), ThreadOf(st)) ==
      match AskedFor(s, st)
      case Fetching(size) => if st.CallFetch? then 9 else 3
      case HandingBack(chain) => 6 * |chain| + 3
      case _ => 3
  {
    hide PoolInv, LocksOk, OneClaim, PcOk, Next, Index, RoundUp;
    if st.CallReturn? { StepMoves(s.pool, ReturnList(st.t, st.i, st.size)); }
  }

  // ---------- what the locks protect ----------

  /** This step's thread holds the lock. */
  ghost predicate Holds(s: Sys, st: Step, l: Lock) {
    st.Work? && l in s.held && s.held[l] == st.t
  }

  lemma SectionHolds(s: Sys, st: Step)
    requires SysInv(s) && CanDo(s, st) && st.Work?
    ensures st.t in s.pc && s.pc[st.t].Has? && Holds(s, st, LockOf(s.pc[st.t].job))
  {
    hide PoolInv, OneClaim, PcOk;
    assert HoldsAt(s.pc[st.t], LockOf(s.pc[st.t].job));
  }

  /** The page heap changes only under the page lock, except for use counts of spans in use. */
  lemma PagesUnderLock(s: Sys, st: Step)
    requires SysInv(s) && CanDo(s, st)
    ensures SameButCounts(s.pool.page, Do(s, st).pool.page) || Holds(s, st, PageLock)
  {
    hide PoolInv, LocksOk, OneClaim, PcOk, Next, Can, Index, RoundUp, SupplyOk, LargeLive, Claimed,
      SameButCounts, After;
    SameAsItself(s.pool);
    match st
    case Local(ev) => QuietPage(s.pool, ev);
    case CallReturn(t, i, size) => QuietPage(s.pool, ReturnList(t, i, size));
    case Work(t, cnt, e) =>
      SectionHolds(s, st);
      var evs := SectionEvent(s, t, s.pc[t].job, cnt, e);
      if evs != [] && LockOf(s.pc[t].job) != PageLock {
        assert evs[0] in evs;
        QuietPage(s.pool, evs[0]);
      }
    case _ =>
  }

  lemma SameAsItself(p: Pool)
    ensures SameButCounts(p.page, p.page)
  {
  }

  /** Bucket i has the same spans, and they have the same free lists and use counts. */
  ghost predicate BucketSame(p: Pool, p': Pool, i: nat) {
    && i < |p.central| && i < |p'.central| && p'.central[i] == p.central[i]
    && forall q :: q in p.central[i] ==>
         && q in p.free && q in p'.free && p'.free[q] == p.free[q]
         && q in p.page.spans && q in p'.page.spans && p'.page.spans[q] == p.page.spans[q]
  }

  // The spans of bucket i, and none of another bucket.
  lemma BucketSpans(p: Pool, i: nat)
    requires PoolInv(p) && i < BUCKETS
    ensures i < |p.central|
    ensures forall q :: q in p.central[i] ==>
      && q in p.role && p.role[q] == Serving && q in p.free && q in p.page.spans && p.page.spans[q].used
      && p.page.spans[q].blockSize <= MAX_BYTES && Index(p.page.spans[q].blockSize) == i
  {
    hide Inv, Roles, ListsOk, PlacesOk, BlocksOf, Index;
    forall q | q in p.central[i] ensures q in Used(p.page.spans) {}
  }

  lemma NothingTouched(p: Pool, i: nat)
    requires PoolInv(p) && i < BUCKETS
    ensures BucketSame(p, p, i)
  {
    hide PoolInv, Index;
    BucketSpans(p, i);
  }

  // Only the record and free list of span x have changed, and it is not in bucket i.
  lemma OtherSpan(p: Pool, p': Pool, i: nat, x: Ptr)
    requires PoolInv(p) && i < BUCKETS && i < |p.central| && x !in p.central[i]
    requires i < |p'.central| && p'.central[i] == p.central[i]
    requires forall q :: q in p.free && q != x ==> q in p'.free && p'.free[q] == p.free[q]
    requires forall q :: q in p.page.spans && q != x ==> q in p'.page.spans && p'.page.spans[q] == p.page.spans[q]
    ensures BucketSame(p, p', i)
  {
    hide PoolInv, Index;
    BucketSpans(p, i);
  }

  lemma ListedBucket(p: Pool, t: Tid, size: nat, cnt: nat, i: nat)
    requires PoolInv(p) && Can(p, AllocListed(t, size, cnt)) && i < BUCKETS && i != Index(size)
    ensures BucketSame(p, Next(p, AllocListed(t, size, cnt)), i)
  {
    hide PoolInv, Index, RoundUp, Move, BucketSame;
    ChosenServes(p, size);
    BucketSpans(p, i);
    OtherSpan(p, Next(p, AllocListed(t, size, cnt)), i, Chosen(p, size));
  }

  lemma CarvedBucket(p: Pool, t: Tid, cnt: nat, i: nat)
    requires PoolInv(p) && Can(p, AllocCarved(t, cnt)) && i < BUCKETS && !FitsBucket(p.phase[t].size, i)
    ensures BucketSame(p, Next(p, AllocCarved(t, cnt)), i)
  {
    hide PoolInv, Index, RoundUp, Move, BucketSame, AddSpan;
    CarvedReady(p, t, cnt);
    PrivateSize(p, t);
    BucketSpans(p, i);
    OtherSpan(p, Next(p, AllocCarved(t, cnt)), i, p.phase[t].q);
  }

  lemma ReturnBlockBucket(p: Pool, t: Tid, i: nat)
    requires PoolInv(p) && Can(p, ReturnBlock(t)) && i < BUCKETS && !FitsBucket(p.phase[t].size, i)
    ensures BucketSame(p, Next(p, ReturnBlock(t)), i)
  {
    hide PoolInv, Index, RoundUp, Move, BucketSame, DropSpan, BlocksOf;
    ReturnBlockReady(p, t);
    BucketSpans(p, i);
    ReturningTo(p, t);
    OtherSpan(p, Next(p, ReturnBlock(t)), i, p.place[p.phase[t].chain[0]].span);
  }

  // The bucket of the span that a returning thread's first block belongs to.
  lemma ReturningTo(p: Pool, t: Tid)
    requires PoolInv(p) && t in p.phase && p.phase[t].Returning? && p.phase[t].chain != []
    ensures var a := p.phase[t].chain[0];
      && a in p.place && p.place[a].span in p.page.spans && p.page.spans[p.place[a].span].blockSize <= MAX_BYTES
      && FitsBucket(p.phase[t].size, Index(p.page.spans[p.place[a].span].blockSize))
  {
    hide Inv, PoolOk, BlocksOf, Index;
    InvParts(p);
    ChainHead(Used(p.page.spans), p, t);
    AllAtHead(p.place, p.phase[t].chain[0], InChain(t));
  }

  // Sections of PageCache spare the spans that serve blocks.
  lemma PageSectionBucket(p: Pool, ev: Event, i: nat)
    requires PoolInv(p) && Can(p, ev) && i < BUCKETS
    requires ev.AllocSpan? || ev.AllocLarge? || ev.FreeLarge? || ev.ReturnSpan?
    ensures BucketSame(p, Next(p, ev), i)
  {
    hide PoolInv, Index, RoundUp, NumMovePage, Grant, Revert, SupplyOk, Searchable, FreshSpans, Granted, Reverted;
    BucketSpans(p, i);
    forall q | q in p.central[i] ensures q in Next(p, ev).page.spans && Next(p, ev).page.spans[q] == p.page.spans[q] {
      if ev.AllocSpan? || ev.AllocLarge? { GrantSparesServing(p, ev, q); } else { ReleaseSparesServing(p, ev, q); }
    }
    match ev
    case AllocSpan(t, size, e) => SpanReady(p, t, size, e);
    case AllocLarge(t, size, e) => ObtainBigKeeps(p, size, e);
    case FreeLarge(t, a) => FreeLargeReady(p, t, a);
    case ReturnSpan(t) => RevertSpanKeeps(p, t);
    case _ =>
  }

  lemma GrantSparesServing(p: Pool, ev: Event, q: Ptr)
    requires PoolInv(p) && Can(p, ev) && q in p.page.spans && p.page.spans[q].used && (ev.AllocSpan? || ev.AllocLarge?)
    ensures q in Next(p, ev).page.spans && Next(p, ev).page.spans[q] == p.page.spans[q]
  {
    hide PoolInv, Index, RoundUp, NumMovePage, Grant, SupplyOk, Searchable, FreshSpans;
    InvParts(p);
    hide Inv, PoolOk;
    match ev
    case AllocSpan(t, size, e) =>
      SpanReady(p, t, size, e);
      GrantIsGranted(p.page, NumMovePage(RoundUp(size)), RoundUp(size), e);
    case AllocLarge(t, size, e) =>
      ObtainBigKeeps(p, size, e);
      GrantIsGranted(p.page, RoundUp(size) / PAGE_BYTES, size, e);
    case _ =>
  }

  lemma ReleaseSparesServing(p: Pool, ev: Event, q: Ptr)
    requires PoolInv(p) && Can(p, ev) && q in p.role && p.role[q] == Serving
    requires q in p.page.spans && p.page.spans[q].used && (ev.FreeLarge? || ev.ReturnSpan?)
    ensures q in Next(p, ev).page.spans && Next(p, ev).page.spans[q] == p.page.spans[q]
  {
    if ev.FreeLarge? {
      hide PoolInv, Index, Revert, SpanAt, PageOf, OnlyAbsorbed, Covers;
      FreedRole(p, ev.t, ev.a);
      FreeLargeReady(p, ev.t, ev.a);
      RevertKeeps(p.page, p.place[ev.a].span);
    } else {
      hide PoolInv, Index, Revert, OnlyAbsorbed, Covers;
      RevertSpanKeeps(p, ev.t);
      RevertsOther(p, ev.t, q);
      RevertKeeps(p.page, p.phase[ev.t].q);
    }
  }

  /** The spans of a bucket, their free lists and their use counts change only under the lock of
      that bucket. */
  lemma BucketUnderLock(s: Sys, st: Step, i: nat)
    requires SysInv(s) && CanDo(s, st) && i < BUCKETS
    ensures BucketSame(s.pool, Do(s, st).pool, i) || Holds(s, st, BucketLock(i))
  {
    hide PoolInv, LocksOk, OneClaim, PcOk, Next, Can, Index, RoundUp, SupplyOk, LargeLive, Claimed, BucketSame, After;
    NothingTouched(s.pool, i);
    match st
    case Local(ev) => LocalBucket(s.pool, ev, i);
    case CallReturn(t, j, size) => LocalBucket(s.pool, ReturnList(t, j, size), i);
    case Work(t, cnt, e) =>
      SectionHolds(s, st);
      JobOf(s, t);
      var job := s.pc[t].job;
      var evs := SectionEvent(s, t, job, cnt, e);
      if evs != [] && LockOf(job) != BucketLock(i) {
        assert evs[0] in evs;
        match job
        case Search(_, size) => ListedBucket(s.pool, t, size, cnt, i);
        case List(_) => CarvedBucket(s.pool, t, cnt, i);
        case GiveBack(_) =>
          if evs[0].ReturnBlock? { ReturnBlockBucket(s.pool, t, i); } else { LocalBucket(s.pool, evs[0], i); }
        case _ => PageSectionBucket(s.pool, evs[0], i);
      }
    case _ =>
  }

  lemma LocalBucket(p: Pool, ev: Event, i: nat)
    requires PoolInv(p) && Can(p, ev) && i < BUCKETS
    requires ev.Start? || ev.AllocCached? || ev.FreeSmall? || ev.ReturnList? || ev.ReturnEnd?
    ensures BucketSame(p, Next(p, ev), i)
  {
    hide PoolInv, Index, RoundUp, Move;
    BucketSpans(p, i);
    if ev.FreeSmall? { FreeSmallList(p, ev.t, ev.a, SpanAt(p, ev.a)); }
  }
}
