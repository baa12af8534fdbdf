/**
 The timer queue of the source: fields updated in place, loops over the expired entries, and
 callbacks that add and cancel timers while handleRead is going through its batch.

 Every method is proved against TimerModel; handleRead as a whole is proved to be a run of
 that machine, so what TimerModel proves of every run holds of it.
 */
module TimerQueues {
  import opened TimerModel

  /** What a callback does with the queue; it runs in the loop thread, so addTimer and cancel
      take effect at once. `clock` is read when the descriptor has to be set. */
  datatype Call = Add(when: int, delta: nat, repeat: bool, clock: int) | Cancel(id: Id)

  lemma RunsThen(q: Queue, evs: seq<Event>, q1: Queue, ev: Event)
    requires Runs(q, evs, q1) && Can(q1, ev)
    ensures Runs(q, evs + [ev], Next(q1, ev))
    decreases |evs|
  {
    hide Can, Next;
    if evs == [] {
      assert ([ev])[1..] == [];
    } else {
      assert (evs + [ev])[1..] == evs[1..] + [ev];
      RunsThen(Next(q, evs[0]), evs[1..], q1, ev);
    }
  }

  // The timers of the batch stay as they were when the callbacks began.
  ghost predicate BatchIs(q: Queue, batch: seq<Entry>, heap: map<Ptr, Timer>) {
    && q.batch == batch
    && forall j :: 0 <= j < |batch| ==>
         batch[j].timer in q.heap && batch[j].timer in heap && q.heap[batch[j].timer] == heap[batch[j].timer]
  }

  ghost function Numbers(batch: seq<Entry>, heap: map<Ptr, Timer>, k: nat): seq<int>
    requires k <= |batch| && forall j :: 0 <= j < |batch| ==> batch[j].timer in heap
  {
    seq(k, i requires 0 <= i < k => heap[batch[i].timer].sequence)
  }

  // ---------- the calls that callbacks make ----------

  /** A callback of the batch starts, or makes a call. */
  datatype Deed = Starts | Makes(call: Call)

  /** These events are these deeds, one after the other. */
  ghost predicate Performs(evs: seq<Event>, deeds: seq<Deed>)
    decreases |deeds|
  {
    if deeds == [] then evs == []
    else
      match deeds[0]
      case Starts => evs != [] && evs[0] == CallbackStarts && Performs(evs[1..], deeds[1..])
      case Makes(Cancel(id)) => evs != [] && evs[0] == CancelTimer(id) && Performs(evs[1..], deeds[1..])
      case Makes(Add(when, delta, repeat, clock)) =>
        && |evs| >= 2 && evs[0].NewTimer? && evs[0] == NewTimer(evs[0].t, when, delta, repeat)
        && evs[1] == AddTimer(evs[0].t, clock) && Performs(evs[2..], deeds[1..])
  }

  function DeedsOf(calls: seq<Call>): seq<Deed> {
    if calls == [] then [] else DeedsOf(calls[..|calls| - 1]) + [Makes(calls[|calls| - 1])]
  }

  /** The callbacks of the timers with these numbers, in order, with all the calls they make. */
  function AllDeeds(numbers: seq<int>, callbacks: int -> seq<Call>): seq<Deed> {
    if numbers == [] then []
    else
      AllDeeds(numbers[..|numbers| - 1], callbacks) + [Starts] + DeedsOf(callbacks(numbers[|numbers| - 1]))
  }

  lemma {:induction false} PerformsThen(evs: seq<Event>, deeds: seq<Deed>, more: seq<Event>, next: seq<Deed>)
    requires Performs(evs, deeds) && Performs(more, next)
    ensures Performs(evs + more, deeds + next)
    decreases |deeds|
  {
    if deeds == [] {
      assert evs + more == more && deeds + next == next;
    } else {
      var n := if deeds[0].Makes? && deeds[0].call.Add? then 2 else 1;
      PerformsThen(evs[n..], deeds[1..], more, next);
      assert (evs + more)[n..] == evs[n..] + more && (deeds + next)[1..] == deeds[1..] + next;
    }
  }

  lemma PerformsOne(evs: seq<Event>, deed: Deed)
    requires match deed
      case Starts => evs == [CallbackStarts]
      case Makes(Cancel(id)) => evs == [CancelTimer(id)]
      case Makes(Add(when, delta, repeat, clock)) =>
        exists t :: evs == [NewTimer(t, when, delta, repeat), AddTimer(t, clock)]
    ensures Performs(evs, [deed])
  {
    assert [deed][1..] == [];
  }

  /** The timers of the batch marked as cancelled are those that a cancel has named. */
  ghost predicate Marked(canceling: set<Id>, evs: seq<Event>, batch: seq<Entry>, heap: map<Ptr, Timer>) {
    forall j :: 0 <= j < |batch| && batch[j].timer in heap ==>
      (IdOf(heap, batch[j].timer) in canceling <==> CancelTimer(IdOf(heap, batch[j].timer)) in evs)
  }

  lemma OtherMarks(canceling: set<Id>, evs: seq<Event>, more: seq<Event>, batch: seq<Entry>, heap: map<Ptr, Timer>)
    requires Marked(canceling, evs, batch, heap) && forall ev :: ev in more ==> !ev.CancelTimer?
    ensures Marked(canceling, evs + more, batch, heap)
  {
  }

  lemma CancelMarks(q: Queue, id: Id, evs: seq<Event>, batch: seq<Entry>, heap: map<Ptr, Timer>)
    requires Inv(q) && q.calling && BatchIs(q, batch, heap) && Marked(q.canceling, evs, batch, heap)
    ensures Marked(CancelInLoop(q, id).canceling, evs + [CancelTimer(id)], batch, heap)
  {
    hide Indexes, Places, Sequences, EraseEntry;
    if id in q.active {
      ActiveIds(q, id);
      IdInActive(q, id.timer);
      NotInBatch(q, id.timer);
    }
  }

  /** What becomes of a timer that was due: indexed again for one interval after now if it
      repeats and no cancel named it, and gone otherwise. */
  ghost predicate Resolved(q: Queue, t: Ptr, w: Timer, now: int, evs: seq<Event>) {
    if w.repeat && CancelTimer(Id(t, w.sequence)) !in evs then
      && t in q.heap && q.heap[t] == w.(expiration := now + w.delta)
      && Entry(now + w.delta, t) in q.timers && Id(t, w.sequence) in q.active
    else t !in q.heap
  }

  lemma EndResolves(q: Queue, now: int, later: int, evs: seq<Event>, batch: seq<Entry>, heap: map<Ptr, Timer>)
    requires Inv(q) && BatchIs(q, batch, heap) && Marked(q.canceling, evs, batch, heap)
    ensures forall j :: 0 <= j < |batch| ==> batch[j].timer in heap
    ensures forall j :: 0 <= j < |batch| ==>
      Resolved(End(q, now, later), batch[j].timer, heap[batch[j].timer], now, evs + [ReadEnds(now, later)])
  {
    hide Inv, End;
    EndRestartsIff(q, now, later);
  }

  lemma CancelSparesBatch(q: Queue, id: Id, batch: seq<Entry>, heap: map<Ptr, Timer>)
    requires Inv(q) && BatchIs(q, batch, heap)
    ensures BatchIs(CancelInLoop(q, id), batch, heap)
  {
    hide Indexes, Places, Sequences, EraseEntry;
    if id in q.active {
      ActiveIds(q, id);
      IdInActive(q, id.timer);
      NotInBatch(q, id.timer);
    }
  }

  lemma NotInBatch(q: Queue, t: Ptr)
    requires Inv(q) && t in q.heap && EntryOf(q.heap, t) in q.timers
    ensures forall j :: 0 <= j < |q.batch| ==> q.batch[j].timer != t
  {
    hide Indexes, Sequences;
  }

  lemma BatchAlive(q: Queue)
    requires Inv(q)
    ensures BatchIs(q, q.batch, q.heap)
  {
    hide Indexes, Sequences;
  }

  lemma IdsOfNext(heap: map<Ptr, Timer>, es: seq<Entry>, i: nat)
    requires i < |es| && es[i].timer in heap
    ensures IdsOf(heap, es[..i + 1]) == IdsOf(heap, es[..i]) + {IdOf(heap, es[i].timer)}
  {
    assert es[..i + 1] == es[..i] + [es[i]];
    assert es[i] in es[..i + 1];
  }

  lemma IdsOfNone(heap: map<Ptr, Timer>)
    ensures IdsOf(heap, []) == {}
  {
  }

  lemma RunsOne(q: Queue, ev: Event)
    requires Can(q, ev)
    ensures Runs(q, [ev], Next(q, ev))
  {
    RunsThen(q, [], q, ev);
    assert [] + [ev] == [ev];
  }

  lemma BeginSpares(q: Queue, now: int)
    requires Inv(q) && !q.calling
    ensures BatchIs(Begin(q, now), q.timers[..ExpiredCount(q.timers, now)], q.heap)
  {
    hide Inv, BatchIs, BatchPlaces, ExpiredCount, IdsOf;
    NextKeeps(q, ReadBegins(now));
    BatchAlive(Begin(q, now));
  }

  lemma BatchEntry(q: Queue, batch: seq<Entry>, heap: map<Ptr, Timer>, i: nat)
    requires BatchIs(q, batch, heap) && i < |batch|
    ensures batch[i].timer in q.heap && batch[i].timer in heap
    ensures q.heap[batch[i].timer].sequence == heap[batch[i].timer].sequence && q.batch == batch
  {
  }

  lemma RunSpares(q: Queue, batch: seq<Entry>, heap: map<Ptr, Timer>)
    requires BatchIs(q, batch, heap) && q.ran < |q.batch| && q.batch[q.ran].timer in q.heap
    ensures BatchIs(RunNext(q), batch, heap)
  {
  }

  lemma NumbersNext(batch: seq<Entry>, heap: map<Ptr, Timer>, i: nat)
    requires i < |batch| && forall j :: 0 <= j < |batch| ==> batch[j].timer in heap
    ensures Numbers(batch, heap, i + 1) == Numbers(batch, heap, i) + [heap[batch[i].timer].sequence]
  {
  }

  lemma NumbersNone(batch: seq<Entry>, heap: map<Ptr, Timer>)
    requires forall j :: 0 <= j < |batch| ==> batch[j].timer in heap
    ensures Numbers(batch, heap, 0) == []
  {
  }

  lemma BatchInside(q: Queue, batch: seq<Entry>, heap: map<Ptr, Timer>)
    requires BatchIs(q, batch, heap)
    ensures forall j :: 0 <= j < |batch| ==> batch[j].timer in heap
    ensures q.batch == batch
  {
  }

  lemma StartCallback(q: Queue)
    requires q.calling && q.ran < |q.batch| && q.batch[q.ran].timer in q.heap
    ensures Can(q, CallbackStarts) && Next(q, CallbackStarts) == RunNext(q)
  {
  }

  lemma StopReading(q: Queue, now: int, later: int)
    requires Inv(q) && q.calling && q.ran == |q.batch|
    ensures Can(q, ReadEnds(now, later)) && Next(q, ReadEnds(now, later)) == End(q, now, later)
    ensures End(q, now, later) == End(q.(calling := false), now, later)
    ensures InvFrom(q.(calling := false), 0)
  {
    hide Indexes, Places, Sequences, RestartFrom;
  }

  lemma Started(q: Queue, now: int)
    requires Inv(q) && !q.calling
    ensures Runs(q, [ReadBegins(now)], Begin(q, now)) && Inv(Begin(q, now))
    ensures BatchIs(Begin(q, now), q.timers[..ExpiredCount(q.timers, now)], q.heap)
    ensures Begin(q, now).calling && Begin(q, now).ran == 0 && Begin(q, now).log == q.log
    ensures Begin(q, now).canceling == {}
  {
    hide Inv, BatchPlaces, ExpiredCount, IdsOf;
    RunsOne(q, ReadBegins(now));
    NextKeeps(q, ReadBegins(now));
    BeginSpares(q, now);
  }

  lemma Ended(q: Queue, now: int, later: int)
    ensures !End(q, now, later).calling && End(q, now, later).log == q.log
  {
    hide RestartFrom;
    RestartFromLog(q.(calling := false), 0, now);
  }

  lemma FdApart(q': Queue, fd: Descriptor, q: Queue)
    requires Inv(q) && q' == q.(fd := fd)
    ensures Inv(q')
  {
    hide Indexes, Places, Sequences;
  }

  class TimerQueue {
    // the heap that Timer objects live in
    var heap: map<Ptr, Timer>
    var timers: seq<Entry>
    var activeTimers: set<Id>
    var cancelingTimers: set<Id>
    var callingExpiredTimers: bool
    var numCreated: int
    var timerfd: Descriptor
    ghost var batch: seq<Entry>
    ghost var ran: nat
    ghost var place: map<Ptr, Place>
    ghost var log: seq<int>

    ghost function View(): Queue
      reads this
    {
      Queue(heap, timers, activeTimers, cancelingTimers, callingExpiredTimers, numCreated, timerfd, batch, ran,
          place, log)
    }

    constructor ()
      ensures View() == Init()
      ensures Inv(View())
    {
      heap, timers, activeTimers, cancelingTimers := map[], [], {}, {};
      callingExpiredTimers, numCreated, timerfd := false, 0, Disarmed;
      batch, ran, place, log := [], 0, map[], [];
    }

    // operator new: some free address
    method New() returns (t: Ptr)
      ensures t !in heap
    {
      t := 0;
      ghost var rest := heap.Keys;
      while t in heap
        invariant forall x :: x in rest <==> x in heap && x >= t
        decreases |rest|
      {
        rest := rest - {t};
        t := t + 1;
      }
    }

    /** addTimer up to handing the object to the loop */
    method Create(when: int, delta: nat, repeat: bool) returns (t: Ptr)
      modifies this
      ensures t !in old(heap)
      ensures View() == TimerModel.Create(old(View()), t, when, delta, repeat)
    {
      t := New();
      numCreated := numCreated + 1;
      heap := heap[t := Timer(when, delta, repeat, numCreated)];
      place := place[t := Pending];
    }

    method Insert(t: Ptr) returns (earliestChanged: bool)
      requires t in heap
      modifies this
      ensures View() == TimerModel.Insert(old(View()), t)
      ensures earliestChanged == EarliestChanged(old(View()), t)
    {
      earliestChanged := false;
      var when := heap[t].expiration;
      if timers == [] || when < timers[0].when {
        earliestChanged := true;
      }
      timers := InsertEntry(timers, Entry(when, t));
      activeTimers := activeTimers + {Id(t, heap[t].sequence)};
      place := place[t := Indexed];
    }

    method ResetTimerfd(when: int, now: int)
      modifies this`timerfd
      ensures timerfd == Arm(when, now)
    {
      var microseconds := when - now;
      if microseconds < 100 {
        microseconds := 100;
      }
      timerfd := Armed(now + microseconds, now);
    }

    method AddTimerInLoop(t: Ptr, now: int)
      requires t in heap
      modifies this
      ensures View() == AddInLoop(old(View()), t, now)
    {
      var earliestChanged := Insert(t);
      if earliestChanged {
        ResetTimerfd(heap[t].expiration, now);
      }
    }

    method CancelInLoop(id: Id)
      requires Inv(View())
      modifies this
      ensures View() == TimerModel.CancelInLoop(old(View()), id)
    {
      hide Places, Sequences, Sorted, EraseEntry;
      if id in activeTimers {
        timers := EraseEntry(timers, Entry(heap[id.timer].expiration, id.timer));
        heap, place := heap - {id.timer}, place - {id.timer};
        activeTimers := activeTimers - {id};
      } else if callingExpiredTimers {
        cancelingTimers := cancelingTimers + {id};
      }
    }

    method GetExpired(now: int) returns (expired: seq<Entry>)
      requires Inv(View())
      modifies this`timers, this`activeTimers
      ensures var n := ExpiredCount(old(timers), now); expired == old(timers)[..n] && timers == old(timers)[n..]
      ensures activeTimers == old(activeTimers) - IdsOf(heap, expired)
    {
      hide Places, Sequences, Sorted, ExpiredCount, IdsOf;
      var end := ExpiredCount(timers, now);
      expired := timers[..end];
      assert forall e :: e in expired ==> e in timers;
      timers := timers[end..];
      var i := 0;
      IdsOfNone(heap);
      while i < |expired|
        invariant 0 <= i <= |expired|
        invariant activeTimers == old(activeTimers) - IdsOf(heap, expired[..i])
        invariant expired == old(timers)[..end] && timers == old(timers)[end..]
        invariant forall e :: e in expired ==> e.timer in heap
        modifies this`activeTimers
      {
        IdsOfNext(heap, expired, i);
        activeTimers := activeTimers - {Id(expired[i].timer, heap[expired[i].timer].sequence)};
        i := i + 1;
      }
      assert expired[..|expired|] == expired;
    }

    method Reset(expired: seq<Entry>, now: int, later: int)
      requires InvFrom(View(), 0) && batch == expired && !callingExpiredTimers
      modifies this
      ensures View() == End(old(View()), now, later)
    {
      hide Indexes, Places, Sequences;
      var i := 0;
      while i < |expired|
        invariant 0 <= i <= |expired|
        invariant batch == expired && InvFrom(View(), i)
        invariant RestartFrom(View(), i, now) == RestartFrom(old(View()), 0, now)
      {
        RestartKeeps(View(), i, now);
        label before:
        RestartOne(expired[i].timer, now);
        assert View() == Restart(old@before(View()), expired[i].timer, now);
        i := i + 1;
      }
      batch, ran := [], 0;
      if timers != [] && timers[0].when > 0 {
        ResetTimerfd(timers[0].when, later);
      }
    }

    // handleRead up to the callbacks
    method StartReading(now: int) returns (expired: seq<Entry>)
      requires Inv(View())
      modifies this
      ensures View() == Begin(old(View()), now)
      ensures expired == batch == old(timers)[..ExpiredCount(old(timers), now)]
    {
      hide Inv, ExpiredCount, BatchPlaces, IdsOf;
      if timerfd == Fired {
        timerfd := Disarmed;
      }
      FdApart(View(), timerfd, old(View()));
      expired := GetExpired(now);
      callingExpiredTimers := true;
      cancelingTimers := {};
      batch, ran, place := expired, 0, BatchPlaces(place, expired);
    }

    method RestartOne(t: Ptr, now: int)
      requires t in heap
      modifies this
      ensures View() == Restart(old(View()), t, now)
    {
      if heap[t].repeat && Id(t, heap[t].sequence) !in cancelingTimers {
        heap := heap[t := heap[t].(expiration := now + heap[t].delta)];
        var _ := Insert(t);
      } else {
        heap, place := heap - {t}, place - {t};
      }
    }

    /** One callback: its calls happen one after the other. */
    method Run(calls: seq<Call>, ghost q0: Queue, ghost before: seq<Event>, ghost h: map<Ptr, Timer>)
          returns (ghost evs: seq<Event>)
      requires Inv(View()) && Runs(q0, before, View()) && BatchIs(View(), batch, h)
      requires callingExpiredTimers && Marked(cancelingTimers, before, batch, h)
      modifies this
      ensures Inv(View()) && Runs(q0, evs, View()) && BatchIs(View(), old(batch), h)
      ensures before <= evs && Performs(evs[|before|..], DeedsOf(calls)) && Marked(cancelingTimers, evs, old(batch), h)
      ensures batch == old(batch) && ran == old(ran) && log == old(log) && callingExpiredTimers
    {
      hide Inv, Runs, Marked, Performs;
      evs := before;
      PerformsNothing();
      assert before[|before|..] == [] && calls[..0] == [];
      for i := 0 to |calls|
        invariant Inv(View()) && Runs(q0, evs, View()) && BatchIs(View(), old(batch), h)
        invariant before <= evs && Performs(evs[|before|..], DeedsOf(calls[..i]))
        invariant Marked(cancelingTimers, evs, old(batch), h)
        invariant batch == old(batch) && ran == old(ran) && log == old(log) && callingExpiredTimers
      {
        ghost var was := evs;
        evs := Invoke(calls[i], q0, evs, h);
        PerformsThen(was[|before|..], DeedsOf(calls[..i]), evs[|was|..], [Makes(calls[i])]);
        assert evs[|before|..] == was[|before|..] + evs[|was|..] && calls[..i + 1][..i] == calls[..i];
      }
      assert calls[..|calls|] == calls;
    }

    method Invoke(call: Call, ghost q0: Queue, ghost before: seq<Event>, ghost h: map<Ptr, Timer>)
          returns (ghost evs: seq<Event>)
      requires Inv(View()) && Runs(q0, before, View()) && BatchIs(View(), batch, h)
      requires callingExpiredTimers && Marked(cancelingTimers, before, batch, h)
      modifies this
      ensures Inv(View()) && Runs(q0, evs, View()) && BatchIs(View(), old(batch), h)
      ensures before <= evs && Performs(evs[|before|..], [Makes(call)]) && Marked(cancelingTimers, evs, old(batch), h)
      ensures batch == old(batch) && ran == old(ran) && log == old(log) && callingExpiredTimers
    {
      hide Inv, Runs, InsertEntry, EraseEntry, Marked, Performs;
      ghost var q := View();
      match call {
        case Add(when, delta, repeat, clock) =>
          var t := Create(when, delta, repeat);
          evs := before + [NewTimer(t, when, delta, repeat)];
          RunsThen(q0, before, q, NewTimer(t, when, delta, repeat));
          CreateKeeps(q, t, when, delta, repeat);
          ghost var q1 := View();
          AddTimerInLoop(t, clock);
          RunsThen(q0, evs, q1, AddTimer(t, clock));
          AddKeeps(q1, t, clock);
          evs := evs + [AddTimer(t, clock)];
          ghost var added := [NewTimer(t, when, delta, repeat), AddTimer(t, clock)];
          assert evs == before + added && evs[|before|..] == added;
          PerformsOne(added, Makes(call));
          OtherMarks(q.canceling, before, added, q.batch, h);
        case Cancel(id) =>
          CancelInLoop(id);
          evs := before + [CancelTimer(id)];
          RunsThen(q0, before, q, CancelTimer(id));
          CancelKeeps(q, id);
          CancelSparesBatch(q, id, q.batch, h);
          assert evs[|before|..] == [CancelTimer(id)];
          PerformsOne([CancelTimer(id)], Makes(call));
          CancelMarks(q, id, before, q.batch, h);
      }
    }

    /** The descriptor became readable. `callbacks(t)` is what the timer with this number does
        when it runs. The timers due at `now` run, each once, earliest first, and make exactly
        the calls that are theirs; those that repeat and that no call cancelled are indexed again
        and the others are gone; and the whole call is a run of the timer machine. */
    method HandleRead(now: int, later: int, callbacks: int -> seq<Call>) returns (ghost evs: seq<Event>)
      requires Inv(View()) && !callingExpiredTimers
      modifies this
      ensures Inv(View()) && !callingExpiredTimers && Runs(old(View()), evs, View())
      ensures |evs| >= 2 && evs[0] == ReadBegins(now) && evs[|evs| - 1] == ReadEnds(now, later)
      ensures var due := old(timers)[..ExpiredCount(old(timers), now)];
        && (forall j :: 0 <= j < |due| ==> due[j].timer in old(heap))
        && log == old(log) + Numbers(due, old(heap), |due|)
        && Performs(evs[1..|evs| - 1], AllDeeds(Numbers(due, old(heap), |due|), callbacks))
        && (forall j :: 0 <= j < |due| ==> Resolved(View(), due[j].timer, old(heap)[due[j].timer], now, evs))
    {
      hide Inv, InvFrom, Runs, Begin, Next, Can, BatchIs, Numbers, ExpiredCount, End, Marked, Performs, Resolved;
      ghost var q0 := View();
      var expired := StartReading(now);
      Started(q0, now);
      evs := [ReadBegins(now)];
      BatchInside(View(), expired, q0.heap);
      NumbersNone(expired, q0.heap);
      NoneMarked(now, expired, q0.heap);
      PerformsNothing();
      assert evs[1..] == [] && Numbers(expired, q0.heap, 0) == [];
      var i := 0;
      while i < |expired|
        invariant 0 <= i <= |expired| && ran == i && callingExpiredTimers
        invariant Inv(View()) && Runs(q0, evs, View()) && batch == expired && BatchIs(View(), expired, q0.heap)
        invariant log == q0.log + Numbers(expired, q0.heap, i) && Marked(cancelingTimers, evs, expired, q0.heap)
        invariant [ReadBegins(now)] <= evs && Performs(evs[1..], AllDeeds(Numbers(expired, q0.heap, i), callbacks))
      {
        ghost var q, was := View(), evs;
        BatchEntry(q, expired, q0.heap, i);
        NumbersNext(expired, q0.heap, i);
        var number := heap[expired[i].timer].sequence;
        log, ran := log + [number], ran + 1;
        assert log == q0.log + Numbers(expired, q0.heap, i + 1);
        StartCallback(q);
        RunsThen(q0, evs, q, CallbackStarts);
        RunKeeps(q);
        RunSpares(q, expired, q0.heap);
        OtherMarks(q.canceling, evs, [CallbackStarts], expired, q0.heap);
        evs := Run(callbacks(number), q0, evs + [CallbackStarts], q0.heap);
        DeedsNext(was, evs, Numbers(expired, q0.heap, i), number, callbacks);
        i := i + 1;
      }
      ghost var q, mid := View(), evs;
      StopReading(q, now, later);
      NextKeeps(q, ReadEnds(now, later));
      RunsThen(q0, evs, q, ReadEnds(now, later));
      EndResolves(q, now, later, mid, expired, q0.heap);
      evs := evs + [ReadEnds(now, later)];
      assert evs[1..|evs| - 1] == mid[1..];
      callingExpiredTimers := false;
      Reset(expired, now, later);
      Ended(q, now, later);
    }
  }

  lemma PerformsNothing()
    ensures Performs([], []) && DeedsOf([]) == []
    ensures forall callbacks :: AllDeeds([], callbacks) == []
  {
  }

  lemma NoneMarked(now: int, batch: seq<Entry>, heap: map<Ptr, Timer>)
    ensures Marked({}, [ReadBegins(now)], batch, heap)
  {
  }

  // One more callback with its calls.
  lemma DeedsNext(was: seq<Event>, evs: seq<Event>, numbers: seq<int>, number: int, callbacks: int -> seq<Call>)
    requires |was| >= 1 && Performs(was[1..], AllDeeds(numbers, callbacks)) && was + [CallbackStarts] <= evs
    requires Performs(evs[|was| + 1..], DeedsOf(callbacks(number)))
    ensures Performs(evs[1..], AllDeeds(numbers + [number], callbacks))
  {
    hide Performs;
    PerformsOne([CallbackStarts], Starts);
    PerformsThen(was[1..], AllDeeds(numbers, callbacks), [CallbackStarts], [Starts]);
    PerformsThen(was[1..] + [CallbackStarts], AllDeeds(numbers, callbacks) + [Starts], evs[|was| + 1..],
        DeedsOf(callbacks(number)));
    assert evs[1..] == was[1..] + [CallbackStarts] + evs[|was| + 1..];
    assert (numbers + [number])[..|numbers|] == numbers;
  }
}
