/**
 The event loop's task queue as a state machine: the loop thread goes round loop() while any
 number of other threads queue tasks and ask it to quit. Each step is one atomic section.
 queueInLoop and quit are two steps for their caller, the second being the wakeup it owes.
 */
module LoopModel {

  type Task = nat
  type Thread = nat

  // an eventfd counter cannot be written beyond this
  const COUNTER_MAX: nat := 0xffff_ffff_ffff_fffe

  /** Where the loop thread is. Handling(r): calling the active channels, r while the wakeup
      channel is still among them. Running(k): k functors of the batch have been called. */
  datatype Pc = Outside | Checking | Polling | Handling(reported: bool) | Swapping | Running(k: nat)

  /** `owing` are the other threads that pushed a task, or set quit_, and have not written to
      the eventfd yet; `selfOwing` is the same for the loop thread. `enqueued`, `executed` and
      `turns` are history. */
  datatype Loop = Loop(
    pc: Pc,
    pending: seq<Task>,
    batch: seq<Task>,
    quit: bool,
    calling: bool,
    counter: nat,
    owing: set<Thread>,
    selfOwing: bool,
    enqueued: seq<Task>,
    executed: seq<Task>,
    turns: nat)

  datatype Event =
    | Start
    | Check
    | PollReturns(reported: bool)
    | ReadWakeup
    | LoopPush(task: Task)
    | LoopWake
    | LoopQuit
    | BeginDrain
    | Swap
    | RunTask
    | EndDrain
    | Push(thread: Thread, task: Task)
    | Quit(thread: Thread)
    | Wake(thread: Thread)

  function Init(): Loop {
    Loop(Outside, [], [], false, false, 0, {}, false, [], [], 0)
  }

  function Enqueue(s: Loop, task: Task): Loop {
    s.(pending := s.pending + [task], enqueued := s.enqueued + [task])
  }

  function Wakeup(counter: nat): nat {
    if counter < COUNTER_MAX then counter + 1 else counter
  }

  /** The loop thread runs user code: before and after loop(), in channel callbacks, and in
      functors. While it owes a wakeup it does nothing else. */
  predicate InUserCode(s: Loop) {
    !s.selfOwing && (s.pc.Outside? || s.pc.Handling? || (s.pc.Running? && s.pc.k > 0))
  }

  predicate Can(s: Loop, ev: Event) {
    match ev
    case Start => s.pc.Outside? && !s.selfOwing
    case Check => s.pc.Checking?
    // The wakeup channel is reported only if readable; it may be missing even so, when the
    // event array is too short.
    case PollReturns(reported) => s.pc.Polling? && (reported ==> s.counter > 0)
    case ReadWakeup => s.pc == Handling(true) && !s.selfOwing
    case LoopPush(_) => InUserCode(s)
    case LoopWake => s.selfOwing
    case LoopQuit => InUserCode(s)
    case BeginDrain => s.pc == Handling(false) && !s.selfOwing
    case Swap => s.pc.Swapping?
    case RunTask => s.pc.Running? && s.pc.k < |s.batch| && !s.selfOwing
    case EndDrain => s.pc.Running? && s.pc.k == |s.batch| && !s.selfOwing
    case Push(t, _) => t !in s.owing
    case Quit(t) => t !in s.owing
    case Wake(t) => t in s.owing
  }

  function Next(s: Loop, ev: Event): Loop
    requires Can(s, ev)
  {
    match ev
    case Start => s.(pc := Checking, quit := false)
    case Check => if s.quit then s.(pc := Outside) else s.(pc := Polling)
    case PollReturns(reported) => s.(pc := Handling(reported))
    case ReadWakeup => s.(pc := Handling(false), counter := 0)
    case LoopPush(task) => Enqueue(s, task).(selfOwing := s.calling)
    case LoopWake => s.(counter := Wakeup(s.counter), selfOwing := false)
    case LoopQuit => s.(quit := true)
    case BeginDrain => s.(pc := Swapping, calling := true)
    case Swap => s.(pc := Running(0), batch := s.pending, pending := [])
    case RunTask => s.(pc := Running(s.pc.k + 1), executed := s.executed + [s.batch[s.pc.k]])
    case EndDrain => s.(pc := Checking, calling := false, batch := [], turns := s.turns + 1)
    case Push(t, task) => Enqueue(s, task).(owing := s.owing + {t})
    case Quit(t) => s.(quit := true, owing := s.owing + {t})
    case Wake(t) => s.(counter := Wakeup(s.counter), owing := s.owing - {t})
  }

  // ---------- the invariant ----------

  /** poll will return for the wakeup channel: it is readable, or about to become so. */
  predicate Notified(s: Loop) {
    s.counter > 0 || s.owing != {} || s.selfOwing
  }

  /** No lost wakeup. */
  predicate Awake(s: Loop) {
    match s.pc
    case Polling => s.pending != [] || s.quit ==> Notified(s)
    case Checking => s.pending != [] ==> Notified(s)
    case Running(_) => s.pending != [] ==> Notified(s)
    case _ => true
  }

  /** Tasks run in the order they were queued, none twice and none skipped. */
  predicate InOrder(s: Loop) {
    if s.pc.Running? then s.pc.k <= |s.batch| && s.executed + s.batch[s.pc.k..] + s.pending == s.enqueued
    else s.batch == [] && s.executed + s.pending == s.enqueued
  }

  predicate Phases(s: Loop) {
    && (s.calling <==> s.pc.Swapping? || s.pc.Running?)
    && (s.selfOwing ==> s.pc.Running?)
  }

  predicate Inv(s: Loop) {
    Awake(s) && InOrder(s) && Phases(s)
  }

  /** loop() may be entered: nothing is queued, or the eventfd tells of it. */
  predicate MayStart(s: Loop) {
    s.pending == [] || Notified(s)
  }

  lemma InitInv()
    ensures Inv(Init()) && MayStart(Init())
  {
  }

  lemma NextInOrder(s: Loop, ev: Event)
    requires InOrder(s) && Can(s, ev)
    ensures InOrder(Next(s, ev))
  {
    match ev
    case LoopPush(task) => EnqueueInOrder(s, task);
    case Push(t, task) => EnqueueInOrder(s, task);
    case RunTask => RunTaskInOrder(s);
    case _ =>
  }

  lemma RunTaskInOrder(s: Loop)
    requires InOrder(s) && Can(s, RunTask)
    ensures InOrder(Next(s, RunTask))
  {
    assert s.batch[s.pc.k..] == [s.batch[s.pc.k]] + s.batch[s.pc.k + 1..];
  }

  lemma EnqueueInOrder(s: Loop, task: Task)
    requires InOrder(s)
    ensures InOrder(Enqueue(s, task))
  {
    if s.pc.Running? {
      assert s.executed + s.batch[s.pc.k..] + (s.pending + [task])
        == s.executed + s.batch[s.pc.k..] + s.pending + [task];
    } else {
      assert s.executed + (s.pending + [task]) == s.executed + s.pending + [task];
    }
  }

  lemma NextKeeps(s: Loop, ev: Event)
    requires Inv(s) && Can(s, ev) && (ev.Start? ==> MayStart(s))
    ensures Inv(Next(s, ev))
  {
    NextInOrder(s, ev);
    hide InOrder;
  }

  // ---------- runs ----------

  predicate Runs(s: Loop, evs: seq<Event>, s': Loop)
    decreases |evs|
  {
    if evs == [] then s' == s else Can(s, evs[0]) && Runs(Next(s, evs[0]), evs[1..], s')
  }

  lemma RunsSnoc(s: Loop, evs: seq<Event>, s1: Loop, ev: Event)
    requires Runs(s, evs, s1) && Can(s1, ev)
    ensures Runs(s, evs + [ev], Next(s1, ev))
    decreases |evs|
  {
    hide Can, Next;
    if evs == [] {
      assert ([ev])[1..] == [];
    } else {
      assert (evs + [ev])[1..] == evs[1..] + [ev];
      RunsSnoc(Next(s, evs[0]), evs[1..], s1, ev);
    }
  }

  lemma {:induction false} RunsThen(s: Loop, evs: seq<Event>, s1: Loop, more: seq<Event>, s': Loop)
    requires Runs(s, evs, s1) && Runs(s1, more, s')
    ensures Runs(s, evs + more, s')
    decreases |evs|
  {
    hide Can, Next;
    if evs == [] {
      assert evs + more == more;
    } else {
      assert (evs + more)[1..] == evs[1..] + more;
      RunsThen(Next(s, evs[0]), evs[1..], s1, more, s');
    }
  }

  /** The tasks that the loop's own thread and the others queue, in order. */
  function Pushed(evs: seq<Event>): seq<Task> {
    if evs == [] then []
    else if evs[0].LoopPush? || evs[0].Push? then [evs[0].task] + Pushed(evs[1..])
    else Pushed(evs[1..])
  }

  predicate StartsWell(s: Loop, evs: seq<Event>)
    decreases |evs|
  {
    evs != [] && Can(s, evs[0]) ==> (evs[0].Start? ==> MayStart(s)) && StartsWell(Next(s, evs[0]), evs[1..])
  }

  /** Every task queued by anybody is taken on, in order. */
  lemma {:induction false} EveryPushIsTakenOn(s: Loop, evs: seq<Event>, s': Loop)
    requires Runs(s, evs, s')
    ensures s'.enqueued == s.enqueued + Pushed(evs)
    decreases |evs|
  {
    if evs != [] {
      EveryPushIsTakenOn(Next(s, evs[0]), evs[1..], s');
    }
  }

  /** In every interleaving, at every moment: when the loop thread is at poll with tasks
      queued or quit_ set, the wakeup is there or on its way; and what has run, the rest of
      the batch and the queue are the tasks in the order they were queued. */
  lemma {:induction false} EveryInterleaving(s: Loop, evs: seq<Event>, s': Loop)
    requires Inv(s) && Runs(s, evs, s') && StartsWell(s, evs)
    ensures Inv(s')
    ensures s'.pc.Polling? && (s'.pending != [] || s'.quit) ==> s'.counter > 0 || s'.owing != {}
    ensures s'.executed <= s.enqueued + Pushed(evs)
    ensures !s'.pc.Running? ==> s'.executed + s'.pending == s.enqueued + Pushed(evs)
    decreases |evs|
  {
    EveryPushIsTakenOn(s, evs, s');
    hide Can, Next, Awake, MayStart, Notified, Pushed;
    if evs != [] {
      NextKeeps(s, evs[0]);
      EveryInterleaving(Next(s, evs[0]), evs[1..], s');
    } else {
      PollingIsNotified(s);
    }
  }

  lemma PollingIsNotified(s: Loop)
    requires Inv(s)
    ensures s.pc.Polling? && (s.pending != [] || s.quit) ==> s.counter > 0 || s.owing != {}
    ensures s.executed <= s.enqueued && (!s.pc.Running? ==> s.executed + s.pending == s.enqueued)
  {
  }

  /** How often the eventfd is written. */
  function Wakes(evs: seq<Event>): nat {
    if evs == [] then 0 else (if evs[0].Wake? || evs[0].LoopWake? then 1 else 0) + Wakes(evs[1..])
  }

  /** As long as nobody reads it the eventfd counts the writes, as far as a counter goes. */
  lemma {:induction false} CounterCountsWakes(s: Loop, evs: seq<Event>, s': Loop)
    requires Runs(s, evs, s') && s.counter <= COUNTER_MAX && ReadWakeup !in evs
    ensures var n := s.counter + Wakes(evs); s'.counter == if n <= COUNTER_MAX then n else COUNTER_MAX
    decreases |evs|
  {
    if evs != [] {
      assert evs[0] != ReadWakeup && forall ev :: ev in evs[1..] ==> ev in evs;
      CounterCountsWakes(Next(s, evs[0]), evs[1..], s');
    }
  }

  // ---------- what happens before loop() ----------

  predicate NoStart(evs: seq<Event>) {
    forall i :: 0 <= i < |evs| ==> !evs[i].Start?
  }

  /** The loop's own thread queued a task. */
  predicate OwnPush(evs: seq<Event>) {
    exists i :: 0 <= i < |evs| && evs[i].LoopPush?
  }

  /** Another thread queued a task or asked to quit, and so writes the eventfd. */
  predicate ForeignCall(evs: seq<Event>) {
    exists i :: 0 <= i < |evs| && (evs[i].Push? || evs[i].Quit?)
  }

  // One event more in front.
  lemma CallsBefore(evs: seq<Event>)
    requires evs != []
    ensures NoStart(evs) <==> !evs[0].Start? && NoStart(evs[1..])
    ensures OwnPush(evs) <==> evs[0].LoopPush? || OwnPush(evs[1..])
    ensures ForeignCall(evs) <==> evs[0].Push? || evs[0].Quit? || ForeignCall(evs[1..])
  {
    assert evs == [evs[0]] + evs[1..];
    assert forall i :: 0 <= i < |evs| - 1 ==> evs[1..][i] == evs[i + 1];
    if OwnPush(evs[1..]) { var i :| 0 <= i < |evs[1..]| && evs[1..][i].LoopPush?; assert evs[i + 1].LoopPush?; }
    if ForeignCall(evs[1..]) {
      var i :| 0 <= i < |evs[1..]| && (evs[1..][i].Push? || evs[1..][i].Quit?);
      assert evs[i + 1].Push? || evs[i + 1].Quit?;
    }
    if NoStart(evs) { forall i | 0 <= i < |evs[1..]| ensures !evs[1..][i].Start? { assert !evs[i + 1].Start?; } }
  }

  /** Whether loop() may be entered after a stretch outside it depends only on who called what:
      its own thread's tasks need another thread's wakeup. */
  lemma {:induction false} MayStartIff(s: Loop, evs: seq<Event>, s': Loop)
    requires s.pc.Outside? && Phases(s) && Runs(s, evs, s') && NoStart(evs)
    ensures s'.pc.Outside? && Phases(s')
    ensures MayStart(s') <==> ForeignCall(evs) || Notified(s) || (s.pending == [] && !OwnPush(evs))
    decreases |evs|
  {
    if evs != [] {
      CallsBefore(evs);
      var s1 := Next(s, evs[0]);
      hide NoStart, OwnPush, ForeignCall;
      MayStartIff(s1, evs[1..], s');
    }
  }

  /** The first loop() starts without a lost wakeup exactly when its own thread has queued no
      task before, or some other thread has queued one or asked to quit. */
  lemma StartIsAwakeIff(evs: seq<Event>, s: Loop)
    requires Runs(Init(), evs, s) && NoStart(evs)
    ensures Can(s, Start) && (Awake(Next(s, Start)) <==> !OwnPush(evs) || ForeignCall(evs))
  {
    hide NoStart, OwnPush, ForeignCall, Runs;
    MayStartIff(Init(), evs, s);
  }

  lemma OwnTaskBeforeLoopIsLost(task: Task)
    ensures var s := Next(Init(), LoopPush(task)); Inv(s) && Can(s, Start) && !Awake(Next(s, Start))
  {
  }

  /** All starts of a run are without a lost wakeup if the loop's own thread queues tasks only
      from within loop(). */
  predicate OwnPushesInside(s: Loop, evs: seq<Event>)
    decreases |evs|
  {
    evs != [] && Can(s, evs[0]) ==>
      (evs[0].LoopPush? ==> !s.pc.Outside?) && OwnPushesInside(Next(s, evs[0]), evs[1..])
  }

  lemma {:induction false} InsidePushesStartWell(s: Loop, evs: seq<Event>)
    requires Inv(s) && (s.pc.Outside? ==> MayStart(s)) && OwnPushesInside(s, evs)
    ensures StartsWell(s, evs)
    decreases |evs|
  {
    if evs != [] && Can(s, evs[0]) {
      NextKeeps(s, evs[0]);
      hide InOrder;
      InsidePushesStartWell(Next(s, evs[0]), evs[1..]);
    }
  }

  // ---------- quit ----------

  predicate AsksToQuit(ev: Event) {
    ev.Quit? || ev.LoopQuit?
  }

  /** quit_ is cleared only by entering loop(): otherwise it stays set, and the loop thread does
      not enter poll again. */
  lemma {:induction false} QuitStays(s: Loop, evs: seq<Event>, s': Loop)
    requires s.quit && Runs(s, evs, s') && NoStart(evs)
    ensures s'.quit && (s'.pc.Polling? ==> s.pc.Polling? && s'.turns == s.turns)
    decreases |evs|
  {
    if evs != [] {
      CallsBefore(evs);
      hide NoStart;
      QuitStays(Next(s, evs[0]), evs[1..], s');
    }
  }

  /** The run enters poll without having left loop() first. */
  predicate PollsOn(s: Loop, evs: seq<Event>)
    decreases |evs|
  {
    evs != [] && Can(s, evs[0]) && if evs[0].Check? then !s.quit else PollsOn(Next(s, evs[0]), evs[1..])
  }

  lemma {:induction false} QuitInsideIsSeen(s: Loop, evs: seq<Event>)
    requires s.quit && !s.pc.Outside?
    ensures !PollsOn(s, evs)
    decreases |evs|
  {
    if evs != [] && Can(s, evs[0]) && !evs[0].Check? {
      QuitInsideIsSeen(Next(s, evs[0]), evs[1..]);
    }
  }

  // quit_ is set in s, and the run evs does not heed it.
  predicate Forgets(s: Loop, evs: seq<Event>) {
    s.quit && PollsOn(s, evs)
  }

  lemma QuitOutsideIsForgotten(s: Loop, evs: seq<Event>)
    requires Can(s, Start) && evs == [Start, Check]
    ensures PollsOn(s, evs)
  {
    assert evs[1..] == [Check];
    assert PollsOn(Next(s, Start), evs[1..]);
  }

  /** A quit() can be forgotten exactly when it is made outside loop(), whoever makes it. Made
      inside, no run enters poll again before the loop has been left. */
  lemma QuitIsForgottenIff(s: Loop, ev: Event)
    requires Phases(s) && AsksToQuit(ev) && Can(s, ev)
    ensures s.pc.Outside? <==> exists evs :: Forgets(Next(s, ev), evs)
  {
    var s1 := Next(s, ev);
    if s.pc.Outside? {
      var evs := [Start, Check];
      QuitOutsideIsForgotten(s1, evs);
      assert Forgets(s1, evs);
    } else {
      if evs :| Forgets(s1, evs) {
        QuitInsideIsSeen(s1, evs);
      }
    }
  }

  // ---------- a turn of the loop runs everything queued before it ----------

  /** The first n tasks will have run when turn t is over. */
  predicate Promised(s: Loop, n: nat, t: nat) {
    && n <= |s.enqueued|
    && (s.turns >= t ==> n <= |s.executed|)
    && (s.turns + 1 == t && s.pc.Running? ==> n <= |s.enqueued| - |s.pending|)
  }

  lemma NextPromised(s: Loop, ev: Event, n: nat, t: nat)
    requires InOrder(s) && Can(s, ev) && Promised(s, n, t)
    ensures Promised(Next(s, ev), n, t)
  {
    NextInOrder(s, ev);
  }

  lemma {:induction false} RunPromised(s: Loop, evs: seq<Event>, s': Loop, n: nat, t: nat)
    requires InOrder(s) && Runs(s, evs, s') && Promised(s, n, t)
    ensures Promised(s', n, t) && s.turns <= s'.turns
    decreases |evs|
  {
    hide InOrder, Promised, Can;
    if evs != [] {
      NextPromised(s, evs[0], n, t);
      NextInOrder(s, evs[0]);
      RunPromised(Next(s, evs[0]), evs[1..], s', n, t);
    }
  }

  /** Whatever is queued when a turn of the loop has not yet swapped the queue out has run by
      the end of that turn; what is queued later in a turn has run by the end of the next. */
  lemma QueuedTasksRunByTheNextTurn(s: Loop, evs: seq<Event>, s': Loop)
    requires Inv(s) && Runs(s, evs, s')
    requires s'.turns >= s.turns + (if s.pc.Running? then 2 else 1)
    ensures |s.enqueued| <= |s'.executed|
  {
    RunPromised(s, evs, s', |s.enqueued|, s.turns + (if s.pc.Running? then 2 else 1));
  }

  // ---------- the wakeup leads to the tasks ----------

  function Repeat(n: nat): (r: seq<Event>)
  {
    if n == 0 then [] else [RunTask] + Repeat(n - 1)
  }

  lemma {:induction false} RunBatch(s: Loop)
    requires InOrder(s) && s.pc.Running? && !s.selfOwing && s.pending == []
    ensures Runs(s, Repeat(|s.batch| - s.pc.k), s.(pc := Running(|s.batch|), executed := s.enqueued))
    decreases |s.batch| - s.pc.k
  {
    if s.pc.k < |s.batch| {
      NextInOrder(s, RunTask);
      RunBatch(Next(s, RunTask));
      assert Repeat(|s.batch| - s.pc.k)[1..] == Repeat(|s.batch| - s.pc.k - 1);
    }
  }

  /** Once the eventfd is readable at poll, the loop thread left to itself runs all that is
      queued. */
  lemma WakeupRunsEverything(s: Loop)
    requires Inv(s) && s.pc.Polling? && s.counter > 0
    ensures var evs := [PollReturns(true), ReadWakeup, BeginDrain, Swap] + Repeat(|s.pending|);
      var s' := s.(pc := Running(|s.pending|), counter := 0, calling := true, batch := s.pending, pending := [],
          executed := s.enqueued);
      Runs(s, evs, s')
  {
    hide Runs, InOrder;
    var s4 := s.(pc := Running(0), counter := 0, calling := true, batch := s.pending, pending := []);
    var s' := s4.(pc := Running(|s.pending|), executed := s.enqueued);
    ReadyBatch(s, s4);
    RunBatch(s4);
    var r := Repeat(|s.pending|);
    var s1 := Next(s, PollReturns(true));
    var s2 := Next(s1, ReadWakeup);
    var s3 := Next(s2, BeginDrain);
    RunsCons(s3, Swap, r, s');
    RunsCons(s2, BeginDrain, [Swap] + r, s');
    RunsCons(s1, ReadWakeup, [BeginDrain] + ([Swap] + r), s');
    RunsCons(s, PollReturns(true), [ReadWakeup] + ([BeginDrain] + ([Swap] + r)), s');
    assert [PollReturns(true)] + ([ReadWakeup] + ([BeginDrain] + ([Swap] + r)))
        == [PollReturns(true), ReadWakeup, BeginDrain, Swap] + r;
  }

  lemma ReadyBatch(s: Loop, s4: Loop)
    requires Inv(s) && s.pc.Polling?
    requires s4 == s.(pc := Running(0), counter := 0, calling := true, batch := s.pending, pending := [])
    ensures InOrder(s4) && !s4.selfOwing
  {
    assert s4.batch[0..] == s4.batch;
  }

  lemma RunsCons(s: Loop, ev: Event, evs: seq<Event>, s': Loop)
    requires Can(s, ev) && Runs(Next(s, ev), evs, s')
    ensures Runs(s, [ev] + evs, s')
  {
    assert ([ev] + evs)[1..] == evs;
  }

  /** ... and, if quit_ is set, leaves loop(). */
  lemma WakeupLeadsOut(s: Loop)
    requires Inv(s) && s.pc.Polling? && s.counter > 0 && s.quit
    ensures exists evs, s' :: NoStart(evs) && Runs(s, evs, s') && s'.pc.Outside? && s'.executed == s.enqueued
  {
    var evs := [PollReturns(true), ReadWakeup, BeginDrain, Swap] + Repeat(|s.pending|);
    var s1 := s.(pc := Running(|s.pending|), counter := 0, calling := true, batch := s.pending, pending := [],
      executed := s.enqueued);
    WakeupRunsEverything(s);
    hide Runs, Repeat;
    RunsSnoc(s, evs, s1, EndDrain);
    RunsSnoc(s, evs + [EndDrain], Next(s1, EndDrain), Check);
    RepeatRuns(|s.pending|);
    assert NoStart(evs + [EndDrain] + [Check]);
  }

  lemma {:induction false} RepeatRuns(n: nat)
    ensures forall i :: 0 <= i < |Repeat(n)| ==> Repeat(n)[i].RunTask?
  {
    if n > 0 { RepeatRuns(n - 1); }
  }
}
