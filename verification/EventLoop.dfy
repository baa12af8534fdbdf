/**
 The event loop of the source: queueInLoop, quit, the wakeup eventfd, doPendingFunctors and
 loop() over fields updated in place. Functors and channel callbacks are given by the calls
 they make; sections of other threads come between them, at poll, and before quit_ is looked
 at. Each method is proved to be a run of LoopModel's machine, and exactly the run that the
 calls ask for, so what is proved there of every interleaving holds of it.
 */
module EventLoops {
  import opened LoopModel

  /** A section of another thread's queueInLoop or quit: the first half of either, or the write
      to the eventfd that it owes then. A step that the thread is not ready for is skipped. */
  datatype Foreign = PushFrom(thread: Thread, task: Task) | QuitFrom(thread: Thread) | WakeFrom(thread: Thread)

  /** What happens while user code runs in the loop thread. */
  datatype Call = QueueOwn(task: Task) | QuitOwn | Other(step: Foreign)

  /** What one round of loop() meets: what other threads do while it is at poll, whether the
      wakeup channel then misses a place in the event array, the calls made by the channel
      callbacks, and what other threads do between the functors and the next look at quit_. */
  datatype Round = Round(polling: seq<Foreign>, crowded: bool, calls: seq<Call>, leaving: seq<Foreign>)

  // ---------- the events that calls ask for ----------

  function ForeignEvent(f: Foreign): Event {
    match f
    case PushFrom(t, task) => LoopModel.Push(t, task)
    case QuitFrom(t) => LoopModel.Quit(t)
    case WakeFrom(t) => Wake(t)
  }

  /** The state after these events; the first that cannot happen ends them. */
  function After(s: Loop, evs: seq<Event>): Loop
    decreases |evs|
  {
    if evs == [] || !Can(s, evs[0]) then s else After(Next(s, evs[0]), evs[1..])
  }

  function CallEvents(s: Loop, call: Call): seq<Event> {
    match call
    case QueueOwn(task) => if s.calling then [LoopPush(task), LoopWake] else [LoopPush(task)]
    case QuitOwn => [LoopQuit]
    case Other(f) => if Can(s, ForeignEvent(f)) then [ForeignEvent(f)] else []
  }

  function CallsEvents(s: Loop, calls: seq<Call>): seq<Event> {
    if calls == [] then []
    else
      var evs := CallsEvents(s, calls[..|calls| - 1]);
      evs + CallEvents(After(s, evs), calls[|calls| - 1])
  }

  function Others(fs: seq<Foreign>): seq<Call> {
    seq(|fs|, i requires 0 <= i < |fs| => Other(fs[i]))
  }

  /** Each functor is called, and makes its calls. */
  function FunctorEvents(s: Loop, functors: seq<Task>, does: Task -> seq<Call>): seq<Event> {
    if functors == [] then []
    else
      var evs := FunctorEvents(s, functors[..|functors| - 1], does) + [RunTask];
      evs + CallsEvents(After(s, evs), does(functors[|functors| - 1]))
  }

  function DrainEvents(s: Loop, does: Task -> seq<Call>): seq<Event> {
    [BeginDrain, Swap] + FunctorEvents(After(s, [BeginDrain, Swap]), s.pending, does) + [EndDrain]
  }

  function HandlingEvents(s: Loop, round: Round): seq<Event> {
    var evs := if s.counter > 0 && !round.crowded then [PollReturns(true), ReadWakeup] else [PollReturns(false)];
    evs + CallsEvents(After(s, evs), round.calls)
  }

  /** One round of loop() from the look at quit_ that goes on to poll. */
  function RoundEvents(s: Loop, round: Round, does: Task -> seq<Call>): seq<Event> {
    var e1 := [Check] + CallsEvents(After(s, [Check]), Others(round.polling));
    var e2 := e1 + HandlingEvents(After(s, e1), round);
    var e3 := e2 + DrainEvents(After(s, e2), does);
    e3 + CallsEvents(After(s, e3), Others(round.leaving))
  }

  function RoundsEvents(s: Loop, rounds: seq<Round>, does: Task -> seq<Call>): seq<Event> {
    if rounds == [] then []
    else
      var evs := RoundsEvents(s, rounds[..|rounds| - 1], does);
      evs + RoundEvents(After(s, evs), rounds[|rounds| - 1], does)
  }

  lemma {:induction false} RunsAfter(s: Loop, evs: seq<Event>, s': Loop)
    requires Runs(s, evs, s')
    ensures After(s, evs) == s'
    decreases |evs|
  {
    hide Can, Next;
    if evs != [] { RunsAfter(Next(s, evs[0]), evs[1..], s'); }
  }

  // ---------- what the calls come to ----------

  /** What the loop thread itself does: it runs a functor, queues a task, asks to quit. */
  datatype Deed = Ran | Queues(task: Task) | Quits

  function DeedOf(ev: Event): seq<Deed> {
    match ev
    case RunTask => [Ran]
    case LoopPush(task) => [Queues(task)]
    case LoopQuit => [Quits]
    case _ => []
  }

  function Deeds(evs: seq<Event>): seq<Deed> {
    if evs == [] then [] else Deeds(evs[..|evs| - 1]) + DeedOf(evs[|evs| - 1])
  }

  function Asked(call: Call): seq<Deed> {
    match call
    case QueueOwn(task) => [Queues(task)]
    case QuitOwn => [Quits]
    case Other(_) => []
  }

  function AskedAll(calls: seq<Call>): seq<Deed> {
    if calls == [] then [] else AskedAll(calls[..|calls| - 1]) + Asked(calls[|calls| - 1])
  }

  /** Each functor runs and then does what it asks for, one functor after the other. */
  function FunctorDeeds(functors: seq<Task>, does: Task -> seq<Call>): seq<Deed> {
    if functors == [] then []
    else FunctorDeeds(functors[..|functors| - 1], does) + [Ran] + AskedAll(does(functors[|functors| - 1]))
  }

  lemma {:induction false} DeedsThen(evs: seq<Event>, more: seq<Event>)
    ensures Deeds(evs + more) == Deeds(evs) + Deeds(more)
    decreases |more|
  {
    hide DeedOf;
    if more == [] {
      assert evs + more == evs;
    } else {
      assert (evs + more)[..|evs + more| - 1] == evs + more[..|more| - 1];
      DeedsThen(evs, more[..|more| - 1]);
    }
  }

  lemma CallDeeds(s: Loop, call: Call)
    ensures Deeds(CallEvents(s, call)) == Asked(call)
  {
    assert Deeds([]) == [];
    var evs := CallEvents(s, call);
    if |evs| == 1 { assert evs[..0] == []; }
    if |evs| == 2 { assert evs[..1] == [evs[0]] && [evs[0]][..0] == []; }
  }

  lemma {:induction false} CallsDeeds(s: Loop, calls: seq<Call>)
    ensures Deeds(CallsEvents(s, calls)) == AskedAll(calls)
    decreases |calls|
  {
    hide CallEvents, Asked, After;
    if calls != [] {
      var evs := CallsEvents(s, calls[..|calls| - 1]);
      CallsDeeds(s, calls[..|calls| - 1]);
      CallDeeds(After(s, evs), calls[|calls| - 1]);
      DeedsThen(evs, CallEvents(After(s, evs), calls[|calls| - 1]));
    }
  }

  /** Whatever other threads do meanwhile, each functor is run and makes exactly its calls,
      before the next one is run. */
  lemma {:induction false} FunctorsDoTheirs(s: Loop, functors: seq<Task>, does: Task -> seq<Call>)
    ensures Deeds(FunctorEvents(s, functors, does)) == FunctorDeeds(functors, does)
    decreases |functors|
  {
    hide CallsEvents, AskedAll, After;
    if functors != [] {
      var last := functors[|functors| - 1];
      var evs := FunctorEvents(s, functors[..|functors| - 1], does);
      FunctorsDoTheirs(s, functors[..|functors| - 1], does);
      DeedsThen(evs, [RunTask]);
      assert Deeds([RunTask]) == [Ran] by { assert [RunTask][..0] == []; }
      CallsDeeds(After(s, evs + [RunTask]), does(last));
      DeedsThen(evs + [RunTask], CallsEvents(After(s, evs + [RunTask]), does(last)));
    }
  }

  /** Nothing in these calls is another thread's doing. */
  predicate Alone(calls: seq<Call>) {
    forall i :: 0 <= i < |calls| ==> !calls[i].Other?
  }

  function QueuedBy(calls: seq<Call>): seq<Task> {
    if calls == [] then []
    else QueuedBy(calls[..|calls| - 1]) + (match calls[|calls| - 1] case QueueOwn(task) => [task] case _ => [])
  }

  function QueuedByAll(functors: seq<Task>, does: Task -> seq<Call>): seq<Task> {
    if functors == [] then []
    else QueuedByAll(functors[..|functors| - 1], does) + QueuedBy(does(functors[|functors| - 1]))
  }

  lemma {:induction false} PushedThen(evs: seq<Event>, more: seq<Event>)
    ensures Pushed(evs + more) == Pushed(evs) + Pushed(more)
    decreases |evs|
  {
    if evs == [] {
      assert evs + more == more;
    } else {
      assert (evs + more)[1..] == evs[1..] + more;
      PushedThen(evs[1..], more);
    }
  }

  lemma AloneCall(s: Loop, call: Call)
    requires !call.Other?
    ensures Pushed(CallEvents(s, call)) == (match call case QueueOwn(task) => [task] case _ => [])
  {
    if call.QueueOwn? {
      assert [LoopPush(call.task), LoopWake][1..] == [LoopWake] && [LoopPush(call.task)][1..] == [];
      assert Pushed([LoopWake]) == [];
    }
  }

  lemma {:induction false} AloneQueues(s: Loop, calls: seq<Call>)
    requires Alone(calls)
    ensures Pushed(CallsEvents(s, calls)) == QueuedBy(calls)
    decreases |calls|
  {
    hide After, CallEvents;
    if calls != [] {
      var evs := CallsEvents(s, calls[..|calls| - 1]);
      AloneCall(After(s, evs), calls[|calls| - 1]);
      AloneQueues(s, calls[..|calls| - 1]);
      PushedThen(evs, CallEvents(After(s, evs), calls[|calls| - 1]));
    }
  }

  /** Without other threads the tasks queued meanwhile are those of the functors, in order. */
  lemma {:induction false} FunctorsQueueTheirs(s: Loop, functors: seq<Task>, does: Task -> seq<Call>)
    requires forall i :: 0 <= i < |functors| ==> Alone(does(functors[i]))
    ensures Pushed(FunctorEvents(s, functors, does)) == QueuedByAll(functors, does)
    decreases |functors|
  {
    hide CallsEvents, QueuedBy, After, Alone;
    if functors != [] {
      var last := functors[|functors| - 1];
      var evs := FunctorEvents(s, functors[..|functors| - 1], does);
      FunctorsQueueTheirs(s, functors[..|functors| - 1], does);
      PushedThen(evs, [RunTask]);
      assert Pushed([RunTask]) == [];
      AloneQueues(After(s, evs + [RunTask]), does(last));
      PushedThen(evs + [RunTask], CallsEvents(After(s, evs + [RunTask]), does(last)));
    }
  }

  lemma DrainEdges()
    ensures Deeds([BeginDrain, Swap]) == [] && Deeds([EndDrain]) == []
    ensures Pushed([BeginDrain, Swap]) == [] && Pushed([EndDrain]) == []
  {
    assert [BeginDrain, Swap][..1] == [BeginDrain] && [BeginDrain][..0] == [] && [EndDrain][..0] == [];
    assert Deeds([BeginDrain]) == [];
    assert [BeginDrain, Swap][1..] == [Swap] && Pushed([Swap]) == [];
  }

  lemma DrainComesTo(s: Loop, does: Task -> seq<Call>)
    ensures Deeds(DrainEvents(s, does)) == FunctorDeeds(s.pending, does)
    ensures Pushed(DrainEvents(s, does)) == Pushed(FunctorEvents(After(s, [BeginDrain, Swap]), s.pending, does))
  {
    hide After, FunctorDeeds, FunctorEvents, Deeds, Pushed;
    var evs := FunctorEvents(After(s, [BeginDrain, Swap]), s.pending, does);
    DrainEdges();
    FunctorsDoTheirs(After(s, [BeginDrain, Swap]), s.pending, does);
    DeedsThen([BeginDrain, Swap], evs);
    DeedsThen([BeginDrain, Swap] + evs, [EndDrain]);
    PushedThen([BeginDrain, Swap], evs);
    PushedThen([BeginDrain, Swap] + evs, [EndDrain]);
  }

  /** Channel callbacks make exactly their calls. */
  lemma HandlingComesTo(s: Loop, round: Round)
    ensures Deeds(HandlingEvents(s, round)) == AskedAll(round.calls)
  {
    hide After, CallsEvents, AskedAll;
    var evs := if s.counter > 0 && !round.crowded then [PollReturns(true), ReadWakeup] else [PollReturns(false)];
    CallsDeeds(After(s, evs), round.calls);
    DeedsThen(evs, CallsEvents(After(s, evs), round.calls));
    assert evs[..|evs| - 1] == if |evs| == 2 then [PollReturns(true)] else [];
    assert |evs| == 2 ==> [PollReturns(true)][..0] == [];
    assert Deeds(evs) == [];
  }

  // ---------- the object ----------

  lemma OneStep(s: Loop, ev: Event)
    requires Inv(s) && Can(s, ev) && (ev.Start? ==> MayStart(s))
    ensures Runs(s, [ev], Next(s, ev)) && Inv(Next(s, ev))
  {
    hide Can, Next, Inv;
    NextKeeps(s, ev);
    assert [ev][1..] == [];
  }

  lemma TwoSteps(s: Loop, ev: Event, ev': Event)
    requires Inv(s) && Can(s, ev) && Can(Next(s, ev), ev') && !ev.Start? && !ev'.Start?
    ensures Runs(s, [ev, ev'], Next(Next(s, ev), ev')) && Inv(Next(Next(s, ev), ev'))
  {
    hide Can, Next, Inv;
    OneStep(s, ev);
    OneStep(Next(s, ev), ev');
    RunsThen(s, [ev], Next(s, ev), [ev'], Next(Next(s, ev), ev'));
    assert [ev] + [ev'] == [ev, ev'];
  }

  lemma NoEvents(s: Loop)
    ensures Runs(s, [], s)
  {
  }

  // One more stretch of a run.
  lemma Goes(s: Loop, evs: seq<Event>, s1: Loop, more: seq<Event>, s': Loop)
    requires Runs(s, evs, s1) && Runs(s1, more, s')
    ensures Runs(s, evs + more, s') && After(s, evs) == s1 && After(s, evs + more) == s'
  {
    hide Runs;
    RunsThen(s, evs, s1, more, s');
    RunsAfter(s, evs, s1);
    RunsAfter(s, evs + more, s');
  }

  lemma CallsNext(s: Loop, calls: seq<Call>, i: nat)
    requires i < |calls|
    ensures var evs := CallsEvents(s, calls[..i]);
      CallsEvents(s, calls[..i + 1]) == evs + CallEvents(After(s, evs), calls[i])
  {
    assert calls[..i + 1][..i] == calls[..i];
  }

  lemma CallsAll(s: Loop, calls: seq<Call>)
    ensures CallsEvents(s, calls[..0]) == [] && calls[..|calls|] == calls
  {
  }

  lemma FunctorsNext(s: Loop, functors: seq<Task>, does: Task -> seq<Call>, i: nat)
    requires i < |functors|
    ensures var evs := FunctorEvents(s, functors[..i], does) + [RunTask];
      FunctorEvents(s, functors[..i + 1], does) == evs + CallsEvents(After(s, evs), does(functors[i]))
  {
    assert functors[..i + 1][..i] == functors[..i];
  }

  lemma FunctorsAll(s: Loop, functors: seq<Task>, does: Task -> seq<Call>)
    ensures FunctorEvents(s, functors[..0], does) == [] && functors[..|functors|] == functors
  {
  }

  lemma RoundsNext(s: Loop, rounds: seq<Round>, does: Task -> seq<Call>, i: nat)
    requires i < |rounds|
    ensures var evs := RoundsEvents(s, rounds[..i], does);
      RoundsEvents(s, rounds[..i + 1], does) == evs + RoundEvents(After(s, evs), rounds[i], does)
  {
    assert rounds[..i + 1][..i] == rounds[..i];
  }

  lemma Settled(s: Loop)
    requires Inv(s)
    ensures s.selfOwing ==> s.pc.Running?
    ensures s.calling <==> s.pc.Swapping? || s.pc.Running?
    ensures s.pc.Running? && !s.selfOwing && s.pending != [] ==> s.counter > 0 || s.owing != {}
  {
  }

  // Outside the functors everything not run yet is queued.
  lemma Drained(s: Loop)
    requires Inv(s) && s.pc == Handling(false)
    ensures Can(s, BeginDrain) && Can(Next(s, BeginDrain), Swap)
  {
  }

  class EventLoop {
    var pendingFunctors: seq<Task>
    var quitting: bool
    var callingPendingFunctors: bool
    var wakeupCounter: nat
    // the other threads in the middle of queueInLoop or quit
    var owing: set<Thread>
    ghost var pc: Pc
    ghost var batch: seq<Task>
    ghost var enqueued: seq<Task>
    ghost var executed: seq<Task>
    ghost var turns: nat

    ghost function View(): Loop
      reads this
    {
      Loop(pc, pendingFunctors, batch, quitting, callingPendingFunctors, wakeupCounter, owing, false, enqueued,
          executed, turns)
    }

    constructor ()
      ensures View() == Init() && Inv(View())
    {
      pendingFunctors, quitting, callingPendingFunctors, wakeupCounter, owing := [], false, false, 0, {};
      pc, batch, enqueued, executed, turns := Outside, [], [], [], 0;
    }

    method Wakeup()
      modifies this`wakeupCounter
      ensures wakeupCounter == LoopModel.Wakeup(old(wakeupCounter))
    {
      if wakeupCounter < COUNTER_MAX {
        wakeupCounter := wakeupCounter + 1;
      }
    }

    // the locked section of queueInLoop
    method Push(cb: Task)
      modifies this`pendingFunctors, this`enqueued
      ensures View() == Enqueue(old(View()), cb)
    {
      pendingFunctors, enqueued := pendingFunctors + [cb], enqueued + [cb];
    }

    method QueueInLoop(cb: Task, inLoopThread: bool)
      modifies this`pendingFunctors, this`enqueued, this`wakeupCounter
      ensures pendingFunctors == old(pendingFunctors) + [cb]
      ensures var s := Enqueue(old(View()), cb);
        View() == if !inLoopThread || callingPendingFunctors then s.(counter := LoopModel.Wakeup(s.counter)) else s
    {
      Push(cb);
      if !inLoopThread || callingPendingFunctors {
        Wakeup();
      }
    }

    method Quit(inLoopThread: bool)
      modifies this`quitting, this`wakeupCounter
      ensures var s := old(View()).(quit := true);
        View() == if !inLoopThread then s.(counter := LoopModel.Wakeup(s.counter)) else s
    {
      quitting := true;
      if !inLoopThread {
        Wakeup();
      }
    }

    /** A section of another thread, wherever the loop thread is. */
    method Interfere(f: Foreign) returns (ghost evs: seq<Event>)
      requires Inv(View())
      modifies this
      ensures Runs(old(View()), evs, View()) && Inv(View()) && StaysIn(old(View()), View())
      ensures evs == CallEvents(old(View()), Other(f))
    {
      hide Runs, Inv;
      evs := [];
      ghost var s := View();
      NoEvents(s);
      match f {
        case PushFrom(t, task) =>
          if t !in owing {
            Push(task);
            owing := owing + {t};
            evs := [LoopModel.Push(t, task)];
            OneStep(s, LoopModel.Push(t, task));
          }
        case QuitFrom(t) =>
          if t !in owing {
            quitting := true;
            owing := owing + {t};
            evs := [LoopModel.Quit(t)];
            OneStep(s, LoopModel.Quit(t));
          }
        case WakeFrom(t) =>
          if t in owing {
            Wakeup();
            owing := owing - {t};
            evs := [Wake(t)];
            OneStep(s, Wake(t));
          }
      }
    }

    method InterfereAll(fs: seq<Foreign>) returns (ghost evs: seq<Event>)
      requires Inv(View())
      modifies this
      ensures Runs(old(View()), evs, View()) && Inv(View()) && StaysIn(old(View()), View())
      ensures evs == CallsEvents(old(View()), Others(fs))
    {
      hide Runs, Inv, CallEvents, CallsEvents, After;
      ghost var s := View();
      evs := [];
      NoEvents(s);
      CallsAll(s, Others(fs));
      for i := 0 to |fs|
        invariant Runs(s, evs, View()) && Inv(View()) && StaysIn(s, View())
        invariant evs == CallsEvents(s, Others(fs)[..i])
      {
        ghost var s1 := View();
        ghost var more := Interfere(fs[i]);
        Goes(s, evs, s1, more, View());
        CallsNext(s, Others(fs), i);
        evs := evs + more;
      }
    }

    /** A call made by user code, with what another thread does. */
    method Invoke(call: Call) returns (ghost evs: seq<Event>)
      requires Inv(View()) && InUserCode(View())
      modifies this
      ensures Runs(old(View()), evs, View()) && Inv(View()) && StaysIn(old(View()), View())
      ensures evs == CallEvents(old(View()), call)
    {
      hide Runs, Inv;
      ghost var s := View();
      Settled(s);
      match call {
        case QueueOwn(task) =>
          QueueInLoop(task, true);
          if s.calling {
            evs := [LoopPush(task), LoopWake];
            TwoSteps(s, LoopPush(task), LoopWake);
          } else {
            evs := [LoopPush(task)];
            OneStep(s, LoopPush(task));
          }
        case QuitOwn =>
          Quit(true);
          evs := [LoopQuit];
          OneStep(s, LoopQuit);
        case Other(f) =>
          evs := Interfere(f);
      }
    }

    method InvokeAll(calls: seq<Call>) returns (ghost evs: seq<Event>)
      requires Inv(View()) && InUserCode(View())
      modifies this
      ensures Runs(old(View()), evs, View()) && Inv(View()) && StaysIn(old(View()), View())
      ensures evs == CallsEvents(old(View()), calls)
    {
      hide Runs, Inv, CallEvents, CallsEvents, After;
      ghost var s := View();
      evs := [];
      NoEvents(s);
      CallsAll(s, calls);
      for i := 0 to |calls|
        invariant Runs(s, evs, View()) && Inv(View()) && StaysIn(s, View())
        invariant evs == CallsEvents(s, calls[..i])
      {
        ghost var s1 := View();
        ghost var more := Invoke(calls[i]);
        Goes(s, evs, s1, more, View());
        CallsNext(s, calls, i);
        evs := evs + more;
      }
    }

    /** handleRead of the wakeup channel */
    method HandleRead()
      modifies this`wakeupCounter
      ensures wakeupCounter == 0
    {
      wakeupCounter := 0;
    }

    // the swap under the lock, with the flag set before it
    method TakeFunctors() returns (functors: seq<Task>)
      requires Inv(View()) && pc == Handling(false)
      modifies this
      ensures Can(old(View()), BeginDrain) && View() == Next(Next(old(View()), BeginDrain), Swap) && Inv(View())
      ensures functors == batch == old(pendingFunctors)
    {
      callingPendingFunctors := true;
      functors, pendingFunctors := pendingFunctors, [];
      pc, batch := Running(0), functors;
      assert functors[0..] == functors;
    }

    /** functor() */
    method CallFunctor(functor: Task, does: Task -> seq<Call>) returns (ghost evs: seq<Event>)
      requires Inv(View()) && pc.Running? && pc.k < |batch| && functor == batch[pc.k]
      modifies this
      ensures Runs(old(View()), evs, View()) && Inv(View()) && StaysIn(Next(old(View()), RunTask), View())
      ensures evs == [RunTask] + CallsEvents(Next(old(View()), RunTask), does(functor))
    {
      hide Runs, Inv, CallsEvents, After;
      ghost var s := View();
      Settled(s);
      pc, executed := Running(pc.k + 1), executed + [functor];
      ghost var s1 := View();
      OneStep(s, RunTask);
      evs := InvokeAll(does(functor));
      RunsThen(s, [RunTask], s1, evs, View());
      evs := [RunTask] + evs;
    }

    method FinishFunctors()
      requires Inv(View()) && pc.Running? && pc.k == |batch|
      modifies this`callingPendingFunctors, this`pc, this`batch, this`turns
      ensures Runs(old(View()), [EndDrain], View()) && Inv(View()) && pc == Checking && turns == old(turns) + 1
      ensures pendingFunctors != [] ==> wakeupCounter > 0 || owing != {}
    {
      hide Runs, Inv;
      ghost var s := View();
      Settled(s);
      callingPendingFunctors := false;
      pc, batch, turns := Checking, [], turns + 1;
      OneStep(s, EndDrain);
    }

    /** Runs the functors queued so far, in order, each once, with all the calls they make. What
        they and others queue meanwhile is left for the next round, with a wakeup written for it
        or owed; without other threads that is what the functors queue, in order. */
    method DoPendingFunctors(does: Task -> seq<Call>) returns (ghost evs: seq<Event>)
      requires Inv(View()) && pc == Handling(false)
      modifies this
      ensures Runs(old(View()), evs, View()) && Inv(View()) && pc == Checking && evs == DrainEvents(old(View()), does)
      ensures executed == old(executed) + old(pendingFunctors) && turns == old(turns) + 1
      ensures Deeds(evs) == FunctorDeeds(old(pendingFunctors), does)
      ensures pendingFunctors == Pushed(evs)
      ensures (forall i :: 0 <= i < |old(pendingFunctors)| ==> Alone(does(old(pendingFunctors)[i]))) ==>
        pendingFunctors == QueuedByAll(old(pendingFunctors), does)
      ensures pendingFunctors != [] ==> wakeupCounter > 0 || owing != {}
    {
      hide Runs, Inv, InOrder, CallsEvents, FunctorEvents, After, Deeds, Alone, FunctorDeeds, QueuedByAll, Pushed,
        Deeds;
      ghost var s := View();
      var functors := TakeFunctors();
      Drained(s);
      TwoSteps(s, BeginDrain, Swap);
      ghost var s0 := View();
      RunsAfter(s, [BeginDrain, Swap], s0);
      evs := [];
      NoEvents(s0);
      FunctorsAll(s0, functors, does);
      var i := 0;
      while i < |functors|
        invariant 0 <= i <= |functors| && pc == Running(i) && batch == functors
        invariant Runs(s0, evs, View()) && Inv(View()) && evs == FunctorEvents(s0, functors[..i], does)
        invariant executed == old(executed) + functors[..i] && turns == old(turns)
        invariant enqueued == old(enqueued) + pendingFunctors
      {
        ghost var s1 := View();
        Settled(s1);
        ghost var more := CallFunctor(functors[i], does);
        GoesOn(s0, evs, s1, more, View(), functors, does, i);
        evs := evs + more;
        i := i + 1;
      }
      ghost var s2, all := View(), evs;
      FinishFunctors();
      evs := [BeginDrain, Swap] + all + [EndDrain];
      DrainRuns(s, s0, all, s2, View(), does);
    }

    method HandleEvents(round: Round) returns (ghost evs: seq<Event>)
      requires Inv(View()) && pc == Polling
      modifies this
      ensures Runs(old(View()), evs, View()) && Inv(View()) && pc == Handling(false)
      ensures evs == HandlingEvents(old(View()), round) && Deeds(evs) == AskedAll(round.calls)
      ensures executed == old(executed) && turns == old(turns)
    {
      hide Runs, Inv, CallsEvents, After, Deeds, AskedAll;
      ghost var s := View();
      Settled(s);
      var reported := wakeupCounter > 0 && !round.crowded;
      pc := Handling(reported);
      evs := [PollReturns(reported)];
      OneStep(s, PollReturns(reported));
      if reported {
        TwoSteps(s, PollReturns(true), ReadWakeup);
        HandleRead();
        pc := Handling(false);
        evs := [PollReturns(true), ReadWakeup];
      }
      ghost var s1 := View();
      RunsAfter(s, evs, s1);
      ghost var more := InvokeAll(round.calls);
      RunsThen(s, evs, s1, more, View());
      evs := evs + more;
      HandlingComesTo(s, round);
    }

    /** One round of loop(). */
    method Turn(round: Round, does: Task -> seq<Call>) returns (ghost evs: seq<Event>)
      requires Inv(View()) && pc == Checking && !quitting
      modifies this
      ensures Runs(old(View()), evs, View()) && Inv(View()) && pc == Checking
      ensures evs == RoundEvents(old(View()), round, does)
      ensures old(executed) <= executed && turns == old(turns) + 1
    {
      hide Runs, Inv, CallsEvents, After, HandlingEvents, DrainEvents;
      ghost var s := View();
      pc := Polling;
      OneStep(s, Check);
      ghost var s1 := View();
      evs := InterfereAll(round.polling);
      Goes(s, [Check], s1, evs, View());
      evs := [Check] + evs;
      s1 := View();
      ghost var more := HandleEvents(round);
      Goes(s, evs, s1, more, View());
      evs := evs + more;
      s1 := View();
      more := DoPendingFunctors(does);
      Goes(s, evs, s1, more, View());
      evs := evs + more;
      s1 := View();
      more := InterfereAll(round.leaving);
      Goes(s, evs, s1, more, View());
      evs := evs + more;
    }

    /** loop() for at most these rounds: each is one turn of the machine with the calls it meets,
        and it goes on until quit_ is seen set or the rounds are used up. */
    method Run(rounds: seq<Round>, does: Task -> seq<Call>) returns (ghost evs: seq<Event>)
      requires Inv(View()) && pc == Outside && MayStart(View())
      modifies this
      ensures Runs(old(View()), evs, View()) && Inv(View()) && old(executed) <= executed
      ensures old(turns) <= turns <= old(turns) + |rounds|
      ensures if quitting then pc.Outside? else pc.Checking? && turns == old(turns) + |rounds|
      ensures evs == [Start]
        + RoundsEvents(After(old(View()), [Start]), rounds[..turns - old(turns)], does)
        + if quitting then [Check] else []
    {
      hide Runs, Inv, RoundsEvents, RoundEvents, After;
      ghost var s := View();
      Settled(s);
      quitting := false;
      pc := Checking;
      OneStep(s, Start);
      ghost var s0 := View();
      RunsAfter(s, [Start], s0);
      evs := [];
      NoEvents(s0);
      NoRounds(s0, rounds, does);
      var i := 0;
      while i < |rounds| && !quitting
        invariant 0 <= i <= |rounds| && pc == Checking && s.executed <= executed && turns == s.turns + i
        invariant Runs(s0, evs, View()) && Inv(View()) && evs == RoundsEvents(s0, rounds[..i], does)
      {
        ghost var s1 := View();
        ghost var more := Turn(rounds[i], does);
        Goes(s0, evs, s1, more, View());
        RoundsNext(s0, rounds, does, i);
        evs := evs + more;
        i := i + 1;
      }
      RunsThen(s, [Start], s0, evs, View());
      evs := [Start] + evs;
      if quitting {
        ghost var s1 := View();
        pc := Outside;
        OneStep(s1, Check);
        RunsThen(s, evs, s1, [Check], View());
        evs := evs + [Check];
      } else {
        assert evs + [] == evs;
      }
    }
  }

  // A drain from its parts, and what it comes to.
  lemma DrainRuns(s: Loop, s0: Loop, all: seq<Event>, s2: Loop, s': Loop, does: Task -> seq<Call>)
    requires Runs(s, [BeginDrain, Swap], s0) && Runs(s0, all, s2) && Runs(s2, [EndDrain], s')
    requires all == FunctorEvents(s0, s.pending, does) && s'.enqueued == s.enqueued + s'.pending
    ensures var evs := [BeginDrain, Swap] + all + [EndDrain];
      && Runs(s, evs, s') && evs == DrainEvents(s, does) && Deeds(evs) == FunctorDeeds(s.pending, does)
      && s'.pending == Pushed(evs)
      && ((forall i :: 0 <= i < |s.pending| ==> Alone(does(s.pending[i]))) ==>
            s'.pending == QueuedByAll(s.pending, does))
  {
    hide Runs, FunctorEvents, After, Deeds, Alone, FunctorDeeds, QueuedByAll, Pushed;
    var evs := [BeginDrain, Swap] + all + [EndDrain];
    RunsAfter(s, [BeginDrain, Swap], s0);
    RunsThen(s, [BeginDrain, Swap], s0, all, s2);
    RunsThen(s, [BeginDrain, Swap] + all, s2, [EndDrain], s');
    DrainComesTo(s, does);
    EveryPushIsTakenOn(s, evs, s');
    Cancel(s.enqueued, s'.pending, Pushed(evs));
    if forall i :: 0 <= i < |s.pending| ==> Alone(does(s.pending[i])) { FunctorsQueueTheirs(s0, s.pending, does); }
  }

  lemma Cancel(a: seq<Task>, b: seq<Task>, c: seq<Task>)
    requires a + b == a + c
    ensures b == c
  {
    assert b == (a + b)[|a|..] && c == (a + c)[|a|..];
  }

  lemma NoRounds(s: Loop, rounds: seq<Round>, does: Task -> seq<Call>)
    ensures RoundsEvents(s, rounds[..0], does) == []
  {
  }

  // One more functor of a drain.
  lemma GoesOn(s0: Loop, evs: seq<Event>, s1: Loop, more: seq<Event>, s': Loop, functors: seq<Task>,
        does: Task -> seq<Call>, i: nat)
    requires i < |functors| && Runs(s0, evs, s1) && Inv(s1) && Can(s1, RunTask) && Runs(s1, more, s')
    requires evs == FunctorEvents(s0, functors[..i], does)
    requires more == [RunTask] + CallsEvents(Next(s1, RunTask), does(functors[i]))
    ensures Runs(s0, evs + more, s') && evs + more == FunctorEvents(s0, functors[..i + 1], does)
  {
    hide Inv, Can, Next, Runs, CallsEvents, FunctorEvents, After;
    OneStep(s1, RunTask);
    Goes(s0, evs, s1, [RunTask], Next(s1, RunTask));
    Goes(s0, evs, s1, more, s');
    FunctorsNext(s0, functors, does, i);
  }

  /** What a call made inside user code, or another thread, can change: the queue at its end,
      quit_ being set, wakeups written and owed. */
  ghost predicate StaysIn(s: Loop, s': Loop) {
    && s'.pc == s.pc && s'.batch == s.batch && s'.calling == s.calling && s'.turns == s.turns
      && s'.executed == s.executed
    && s'.selfOwing == s.selfOwing
    && s.pending <= s'.pending && s'.enqueued == s.enqueued + s'.pending[|s.pending|..]
    && s.counter <= s'.counter && (s.quit ==> s'.quit)
  }
}
