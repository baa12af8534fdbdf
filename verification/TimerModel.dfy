/**
 The timer queue as a value: the two indexes over the same heap timers, deferred
 cancellation while callbacks run, and the one-shot timer descriptor.

 Times are the int64 values of Timestamp; the clock is an input of each step. Timers live at
 addresses that `delete` frees and `new` reuses, so they are records in a store.
 */
module TimerModel {

  type Ptr = nat

  // `delta` is interval_ converted as addTime does; repeat_ is interval_ > 0.0.
  datatype Timer = Timer(expiration: int, delta: nat, repeat: bool, sequence: int)

  datatype Entry = Entry(when: int, timer: Ptr)

  /** What a TimerId and an ActiveTimer hold. */
  datatype Id = Id(timer: Ptr, sequence: int)

  /** Where a timer object is: created but not inserted yet (its addTimerInLoop is queued),
      in the indexes, or entry k of the batch that handleRead is working on. */
  datatype Place = Pending | Indexed | InBatch(k: nat)

  /** The descriptor: set at `setAt` to fire at `at`; fired and not yet read; or neither. */
  datatype Descriptor = Disarmed | Armed(at: int, setAt: int) | Fired

  /** `batch` are the expired entries of handleRead and `ran` how many of them have run.
      `place` and the history `log` of sequence numbers run are auxiliary. */
  datatype Queue = Queue(
    heap: map<Ptr, Timer>,
    timers: seq<Entry>,
    active: set<Id>,
    canceling: set<Id>,
    calling: bool,
    created: int,
    fd: Descriptor,
    batch: seq<Entry>,
    ran: nat,
    place: map<Ptr, Place>,
    log: seq<int>)

  // ---------- std::set<pair<Timestamp, Timer*>> ----------

  predicate Less(a: Entry, b: Entry) {
    a.when < b.when || (a.when == b.when && a.timer < b.timer)
  }

  ghost predicate Sorted(s: seq<Entry>) {
    forall i, j :: 0 <= i < j < |s| ==> Less(s[i], s[j])
  }

  function InsertEntry(s: seq<Entry>, e: Entry): seq<Entry> {
    if s == [] then [e]
    else if Less(e, s[0]) then [e] + s
    else if e == s[0] then s
    else [s[0]] + InsertEntry(s[1..], e)
  }

  function EraseEntry(s: seq<Entry>, e: Entry): seq<Entry> {
    if s == [] then [] else if s[0] == e then s[1..] else [s[0]] + EraseEntry(s[1..], e)
  }

  // Position of lower_bound(Entry(now, UINTPTR_MAX)).
  function ExpiredCount(s: seq<Entry>, now: int): (n: nat)
    ensures n <= |s|
  {
    if s == [] || s[0].when > now then 0 else 1 + ExpiredCount(s[1..], now)
  }

  lemma {:induction false} InsertFacts(s: seq<Entry>, e: Entry)
    requires Sorted(s)
    ensures Sorted(InsertEntry(s, e))
    ensures forall x :: x in InsertEntry(s, e) <==> x in s || x == e
  {
    if s != [] && !Less(e, s[0]) && e != s[0] {
      InsertFacts(s[1..], e);
      assert s == [s[0]] + s[1..];
      var r := InsertEntry(s[1..], e);
      forall j | 0 <= j < |r| ensures Less(s[0], r[j]) {
        assert r[j] in r;
        if r[j] in s[1..] { var k :| 0 <= k < |s[1..]| && s[1..][k] == r[j]; assert s[k + 1] == r[j]; }
      }
    } else if s != [] && Less(e, s[0]) {
      forall j | 0 <= j < |s| ensures Less(e, s[j]) { if j > 0 { assert Less(s[0], s[j]); } }
    }
  }

  lemma {:induction false} EraseFacts(s: seq<Entry>, e: Entry)
    requires Sorted(s)
    ensures Sorted(EraseEntry(s, e))
    ensures forall x :: x in EraseEntry(s, e) <==> x in s && x != e
  {
    if s != [] {
      EraseFacts(s[1..], e);
      assert s == [s[0]] + s[1..];
      assert forall j :: 1 <= j < |s| ==> Less(s[0], s[j]);
      var r := EraseEntry(s[1..], e);
      forall j | 0 <= j < |r| ensures Less(s[0], r[j]) {
        assert r[j] in s[1..];
        var k :| 0 <= k < |s[1..]| && s[1..][k] == r[j];
        assert s[k + 1] == r[j];
      }
    }
  }

  /** getExpired splits the timers at `now`: exactly those due, in ascending order. */
  lemma {:induction false} ExpiredFacts(s: seq<Entry>, now: int)
    requires Sorted(s)
    ensures var n := ExpiredCount(s, now);
      && (forall i :: 0 <= i < n ==> s[i].when <= now)
      && (forall i :: n <= i < |s| ==> s[i].when > now)
  {
    if s != [] {
      ExpiredFacts(s[1..], now);
      var n := ExpiredCount(s, now);
      forall i | 0 <= i < |s| ensures if i < n then s[i].when <= now else s[i].when > now {
        if i > 0 { assert Less(s[0], s[i]) && s[i] == s[1..][i - 1]; }
      }
    }
  }

  // ---------- the operations ----------

  // howMuchTimeFromNow: at least 100 microseconds ahead.
  function Arm(when: int, now: int): Descriptor {
    Armed(if when - now < 100 then now + 100 else when, now)
  }

  function IdOf(heap: map<Ptr, Timer>, t: Ptr): Id
    requires t in heap
  {
    Id(t, heap[t].sequence)
  }

  function EntryOf(heap: map<Ptr, Timer>, t: Ptr): Entry
    requires t in heap
  {
    Entry(heap[t].expiration, t)
  }

  // addTimer: the object exists from here on, the index entry only after addTimerInLoop.
  function Create(q: Queue, t: Ptr, when: int, delta: nat, repeat: bool): Queue {
    q.(heap := q.heap[t := Timer(when, delta, repeat, q.created + 1)], created := q.created + 1,
        place := q.place[t := Pending])
  }

  function Insert(q: Queue, t: Ptr): Queue
    requires t in q.heap
  {
    q.(timers := InsertEntry(q.timers, EntryOf(q.heap, t)), active := q.active + {IdOf(q.heap, t)},
        place := q.place[t := Indexed])
  }

  predicate EarliestChanged(q: Queue, t: Ptr)
    requires t in q.heap
  {
    q.timers == [] || q.heap[t].expiration < q.timers[0].when
  }

  function AddInLoop(q: Queue, t: Ptr, now: int): Queue
    requires t in q.heap
  {
    if EarliestChanged(q, t) then Insert(q, t).(fd := Arm(q.heap[t].expiration, now)) else Insert(q, t)
  }

  function Delete(q: Queue, t: Ptr): Queue {
    q.(heap := q.heap - {t}, place := q.place - {t})
  }

  function CancelInLoop(q: Queue, id: Id): Queue {
    if id in q.active && id.timer in q.heap then
      Delete(q, id.timer).(timers := EraseEntry(q.timers, EntryOf(q.heap, id.timer)), active := q.active - {id})
    else if q.calling then q.(canceling := q.canceling + {id})
    else q
  }

  function IdsOf(heap: map<Ptr, Timer>, es: seq<Entry>): set<Id>
  {
    set e | e in es && e.timer in heap :: IdOf(heap, e.timer)
  }

  function Position(es: seq<Entry>, t: Ptr): (k: nat)
    ensures k <= |es|
    ensures k < |es| ==> es[k].timer == t
    ensures forall j :: 0 <= j < k ==> es[j].timer != t
  {
    if es == [] || es[0].timer == t then 0 else 1 + Position(es[1..], t)
  }

  function BatchPlaces(place: map<Ptr, Place>, es: seq<Entry>): map<Ptr, Place> {
    map t | t in place :: if Position(es, t) < |es| then InBatch(Position(es, t)) else place[t]
  }

  // handleRead up to the callbacks: read the descriptor, take the expired timers out.
  function Begin(q: Queue, now: int): Queue {
    var n := ExpiredCount(q.timers, now);
    q.(fd := if q.fd == Fired then Disarmed else q.fd,
       timers := q.timers[n..], batch := q.timers[..n], ran := 0,
       active := q.active - IdsOf(q.heap, q.timers[..n]), calling := true, canceling := {},
       place := BatchPlaces(q.place, q.timers[..n]))
  }

  // The next callback of the batch starts; what it does are further steps.
  function RunNext(q: Queue): Queue
    requires q.ran < |q.batch| && q.batch[q.ran].timer in q.heap
  {
    q.(log := q.log + [q.heap[q.batch[q.ran].timer].sequence], ran := q.ran + 1)
  }

  // reset, one expired timer: restart it if it repeats and was not cancelled, else delete it.
  function Restart(q: Queue, t: Ptr, now: int): Queue
    requires t in q.heap
  {
    if q.heap[t].repeat && IdOf(q.heap, t) !in q.canceling then
      Insert(q.(heap := q.heap[t := q.heap[t].(expiration := now + q.heap[t].delta)]), t)
    else
      Delete(q, t)
  }

  // reset from entry k of the batch on
  function RestartFrom(q: Queue, k: nat, now: int): Queue
    decreases |q.batch| - k
  {
    if k < |q.batch| && q.batch[k].timer in q.heap
    then RestartFrom(Restart(q, q.batch[k].timer, now), k + 1, now) else q
  }

  // The rest of handleRead; `later` is the clock when the descriptor is set.
  function End(q: Queue, now: int, later: int): Queue {
    var r := RestartFrom(q.(calling := false), 0, now).(batch := [], ran := 0);
    if r.timers != [] && r.timers[0].when > 0 then r.(fd := Arm(r.timers[0].when, later)) else r
  }

  // ---------- the invariant ----------

  /** timers_ and activeTimers_ hold the same timers, under their current expirations. */
  ghost predicate Indexes(heap: map<Ptr, Timer>, timers: seq<Entry>, active: set<Id>) {
    && Sorted(timers)
    && (forall e :: e in timers ==>
          e.timer in heap && heap[e.timer].expiration == e.when && IdOf(heap, e.timer) in active)
    && (forall id :: id in active ==>
          id.timer in heap && heap[id.timer].sequence == id.sequence && EntryOf(heap, id.timer) in timers)
  }

  /** Every timer is in exactly one place; entries of the batch before k are done with. */
  ghost predicate Places(heap: map<Ptr, Timer>, timers: seq<Entry>, batch: seq<Entry>, k: nat, place: map<Ptr, Place>) {
    && place.Keys == heap.Keys
    && (forall e :: e in timers ==> e.timer in place && place[e.timer] == Indexed)
    && (forall t :: t in place && place[t] == Indexed ==> t in heap && EntryOf(heap, t) in timers)
    && (forall j :: k <= j < |batch| ==> batch[j].timer in place && place[batch[j].timer] == InBatch(j))
    && (forall t :: t in place && place[t].InBatch? ==> k <= place[t].k < |batch| && batch[place[t].k].timer == t)
  }

  /** Sequence numbers tell all timers ever created apart. */
  ghost predicate Sequences(heap: map<Ptr, Timer>, created: int) {
    && (forall t :: t in heap ==> heap[t].sequence <= created)
    && (forall t, u :: t in heap && u in heap && t != u ==> heap[t].sequence != heap[u].sequence)
  }

  ghost predicate InvFrom(q: Queue, k: nat) {
    && Indexes(q.heap, q.timers, q.active)
    && Places(q.heap, q.timers, q.batch, k, q.place)
    && Sequences(q.heap, q.created)
  }

  ghost predicate Inv(q: Queue) {
    InvFrom(q, 0) && q.ran <= |q.batch| && (!q.calling ==> q.batch == [])
  }

  function Init(): Queue {
    Queue(map[], [], {}, {}, false, 0, Disarmed, [], 0, map[], [])
  }

  lemma InitInv()
    ensures Inv(Init())
  {
  }

  lemma CreateIndexes(q: Queue, t: Ptr, w: Timer)
    requires Indexes(q.heap, q.timers, q.active) && t !in q.heap
    ensures Indexes(q.heap[t := w], q.timers, q.active)
  {
    hide Sorted;
  }

  lemma CreatePlaces(q: Queue, t: Ptr, w: Timer)
    requires Places(q.heap, q.timers, q.batch, 0, q.place) && t !in q.heap
    ensures Places(q.heap[t := w], q.timers, q.batch, 0, q.place[t := Pending])
  {
  }

  lemma CreateKeeps(q: Queue, t: Ptr, when: int, delta: nat, repeat: bool)
    requires Inv(q) && t !in q.heap
    ensures Inv(Create(q, t, when, delta, repeat))
  {
    hide Indexes, Places;
    CreateIndexes(q, t, Timer(when, delta, repeat, q.created + 1));
    CreatePlaces(q, t, Timer(when, delta, repeat, q.created + 1));
  }

  lemma InsertIndexes(heap: map<Ptr, Timer>, timers: seq<Entry>, active: set<Id>, t: Ptr)
    requires Indexes(heap, timers, active) && t in heap
    ensures Indexes(heap, InsertEntry(timers, EntryOf(heap, t)), active + {IdOf(heap, t)})
  {
    InsertFacts(timers, EntryOf(heap, t));
    hide Sorted, InsertEntry;
  }

  // Timer t leaves its place for the indexes; as batch entry k it is then done with.
  lemma InsertPlaces(heap: map<Ptr, Timer>, timers: seq<Entry>, timers': seq<Entry>, batch: seq<Entry>,
                     place: map<Ptr, Place>, t: Ptr, k: nat, k': nat)
    requires Places(heap, timers, batch, k, place) && t in heap
    requires forall x :: x in timers' <==> x in timers || x == EntryOf(heap, t)
    requires t in place && ((place[t] == Pending && k' == k) || (place[t] == InBatch(k) && k' == k + 1))
    ensures Places(heap, timers', batch, k', place[t := Indexed])
  {
  }

  lemma InsertKeeps(q: Queue, t: Ptr)
    requires InvFrom(q, 0) && t in q.place && q.place[t] == Pending
    ensures t in q.heap && InvFrom(Insert(q, t), 0)
  {
    PlaceInHeap(q, 0, t);
    hide Indexes, Places, Sequences, Sorted, InsertEntry;
    InsertIndexes(q.heap, q.timers, q.active, t);
    IndexesSorted(q);
    InsertFacts(q.timers, EntryOf(q.heap, t));
    InsertPlaces(q.heap, q.timers, InsertEntry(q.timers, EntryOf(q.heap, t)), q.batch, q.place, t, 0, 0);
  }

  lemma AddKeeps(q: Queue, t: Ptr, now: int)
    requires Inv(q) && t in q.place && q.place[t] == Pending
    ensures t in q.heap && Inv(AddInLoop(q, t, now))
  {
    hide Indexes, Places, Sequences, EarliestChanged;
    InsertKeeps(q, t);
  }

  lemma PlaceInHeap(q: Queue, k: nat, t: Ptr)
    requires Places(q.heap, q.timers, q.batch, k, q.place)
    ensures t in q.place <==> t in q.heap
    ensures t in q.heap && q.place[t] != Indexed ==> EntryOf(q.heap, t) !in q.timers
  {
  }

  lemma IndexesSorted(q: Queue)
    requires Indexes(q.heap, q.timers, q.active)
    ensures Sorted(q.timers)
  {
  }

  // A timer in no index may be forgotten or given a new expiration.
  lemma DeleteIndexes(heap: map<Ptr, Timer>, timers: seq<Entry>, active: set<Id>, t: Ptr)
    requires Indexes(heap, timers, active) && t in heap && EntryOf(heap, t) !in timers
    ensures Indexes(heap - {t}, timers, active)
  {
    hide Sorted;
  }

  lemma ChangeIndexes(heap: map<Ptr, Timer>, timers: seq<Entry>, active: set<Id>, t: Ptr, w: Timer)
    requires Indexes(heap, timers, active) && t in heap && EntryOf(heap, t) !in timers
    ensures Indexes(heap[t := w], timers, active)
    ensures forall e :: e in timers ==> e.timer != t
  {
    hide Sorted;
  }

  lemma ChangePlaces(heap: map<Ptr, Timer>, timers: seq<Entry>, batch: seq<Entry>, k: nat, place: map<Ptr, Place>,
        t: Ptr, w: Timer)
    requires Places(heap, timers, batch, k, place) && t in heap && place[t] != Indexed
    ensures Places(heap[t := w], timers, batch, k, place)
  {
  }

  lemma DeletePlaces(heap: map<Ptr, Timer>, timers: seq<Entry>, batch: seq<Entry>, k: nat, place: map<Ptr, Place>,
        t: Ptr)
    requires Places(heap, timers, batch, k, place) && t in place && place[t] == InBatch(k)
    ensures Places(heap - {t}, timers, batch, k + 1, place - {t})
  {
  }

  lemma BatchInHeap(q: Queue, k: nat, j: nat)
    requires Places(q.heap, q.timers, q.batch, k, q.place) && k <= j < |q.batch|
    ensures var t := q.batch[j].timer;
      t in q.heap && t in q.place && q.place[t] == InBatch(j) && EntryOf(q.heap, t) !in q.timers
  {
  }

  lemma RestartKeeps(q: Queue, k: nat, now: int)
    requires InvFrom(q, k) && k < |q.batch|
    ensures q.batch[k].timer in q.heap && InvFrom(Restart(q, q.batch[k].timer, now), k + 1)
  {
    hide Indexes, Places, Sorted, InsertEntry;
    BatchInHeap(q, k, k);
    var t := q.batch[k].timer;
    if q.heap[t].repeat && IdOf(q.heap, t) !in q.canceling {
      var w := q.heap[t].(expiration := now + q.heap[t].delta);
      var heap' := q.heap[t := w];
      ChangeIndexes(q.heap, q.timers, q.active, t, w);
      ChangePlaces(q.heap, q.timers, q.batch, k, q.place, t, w);
      InsertIndexes(heap', q.timers, q.active, t);
      IndexesSorted(q);
      InsertFacts(q.timers, EntryOf(heap', t));
      InsertPlaces(heap', q.timers, InsertEntry(q.timers, EntryOf(heap', t)), q.batch, q.place, t, k, k + 1);
    } else {
      DeleteIndexes(q.heap, q.timers, q.active, t);
      DeletePlaces(q.heap, q.timers, q.batch, k, q.place, t);
    }
  }

  lemma {:induction false} RestartFromKeeps(q: Queue, k: nat, now: int)
    requires InvFrom(q, k) && k <= |q.batch|
    ensures var r := RestartFrom(q, k, now);
      InvFrom(r, |q.batch|) && r.batch == q.batch && r.created == q.created && r.log == q.log && r.calling == q.calling
    decreases |q.batch| - k
  {
    hide Indexes, Places, Sequences, Insert;
    if k < |q.batch| {
      RestartKeeps(q, k, now);
      RestartFrame(q, q.batch[k].timer, now);
      RestartFromKeeps(Restart(q, q.batch[k].timer, now), k + 1, now);
    }
  }

  lemma RestartFrame(q: Queue, t: Ptr, now: int)
    requires t in q.heap
    ensures var r := Restart(q, t, now);
      r.batch == q.batch && r.created == q.created && r.log == q.log && r.calling == q.calling
        && r.canceling == q.canceling
      && r.fd == q.fd && r.ran == q.ran
  {
  }

  // With the whole batch done with, it can be dropped.
  lemma DropBatch(q: Queue)
    requires Places(q.heap, q.timers, q.batch, |q.batch|, q.place)
    ensures Places(q.heap, q.timers, [], 0, q.place)
  {
  }

  lemma EndKeeps(q: Queue, now: int, later: int)
    requires Inv(q)
    ensures Inv(End(q, now, later))
  {
    hide Indexes, Places, Sequences, RestartFrom;
    RestartFromKeeps(q.(calling := false), 0, now);
    DropBatch(RestartFrom(q.(calling := false), 0, now));
  }

  lemma CancelIndexes(q: Queue, id: Id)
    requires Indexes(q.heap, q.timers, q.active) && id in q.active && id.timer in q.heap
    ensures Indexes(q.heap - {id.timer}, EraseEntry(q.timers, EntryOf(q.heap, id.timer)), q.active - {id})
  {
    EraseFacts(q.timers, EntryOf(q.heap, id.timer));
    hide Sorted, EraseEntry;
  }

  lemma CancelPlaces(q: Queue, id: Id)
    requires Indexes(q.heap, q.timers, q.active) && Places(q.heap, q.timers, q.batch, 0, q.place)
    requires id in q.active && id.timer in q.heap
    ensures Places(q.heap - {id.timer}, EraseEntry(q.timers, EntryOf(q.heap, id.timer)), q.batch, 0,
        q.place - {id.timer})
  {
    EraseFacts(q.timers, EntryOf(q.heap, id.timer));
    hide Sorted, EraseEntry;
  }

  lemma CancelKeeps(q: Queue, id: Id)
    requires Inv(q)
    ensures Inv(CancelInLoop(q, id))
  {
    if id in q.active && id.timer in q.heap {
      hide Indexes, Places;
      CancelIndexes(q, id);
      CancelPlaces(q, id);
    }
  }

  // Distinct positions of timers_ hold distinct timers.
  lemma TimersDiffer(q: Queue, i: nat, j: nat)
    requires Indexes(q.heap, q.timers, q.active) && i < j < |q.timers|
    ensures q.timers[i].timer != q.timers[j].timer
  {
    assert q.timers[i] in q.timers && q.timers[j] in q.timers && Less(q.timers[i], q.timers[j]);
  }

  lemma EarlyLateApart(q: Queue, n: nat)
    requires Indexes(q.heap, q.timers, q.active) && n <= |q.timers|
    ensures forall x, e :: x in q.timers[..n] && e in q.timers[n..] ==> x.timer != e.timer
  {
    hide Indexes, Sorted;
    forall x, e | x in q.timers[..n] && e in q.timers[n..] ensures x.timer != e.timer {
      var i :| 0 <= i < n && q.timers[..n][i] == x;
      var j :| 0 <= j < |q.timers| - n && q.timers[n..][j] == e;
      TimersDiffer(q, i, n + j);
    }
  }

  lemma IdsOfFacts(heap: map<Ptr, Timer>, es: seq<Entry>)
    ensures forall e :: e in es && e.timer in heap ==> IdOf(heap, e.timer) in IdsOf(heap, es)
    ensures forall id :: id in IdsOf(heap, es) ==> exists e :: e in es && e.timer == id.timer
  {
  }

  lemma BeginIndexes(q: Queue, n: nat)
    requires Indexes(q.heap, q.timers, q.active) && n <= |q.timers|
    ensures Indexes(q.heap, q.timers[n..], q.active - IdsOf(q.heap, q.timers[..n]))
  {
    assert q.timers == q.timers[..n] + q.timers[n..];
    EarlyLateApart(q, n);
    IdsOfFacts(q.heap, q.timers[..n]);
    SuffixSorted(q.timers, n);
    hide Sorted, IdsOf;
  }

  lemma SuffixSorted(s: seq<Entry>, n: nat)
    requires Sorted(s) && n <= |s|
    ensures Sorted(s[n..])
  {
  }

  lemma EarlyAt(q: Queue, n: nat, j: nat)
    requires Indexes(q.heap, q.timers, q.active) && j < n <= |q.timers|
    ensures Position(q.timers[..n], q.timers[..n][j].timer) == j
  {
    hide Indexes;
    var k := Position(q.timers[..n], q.timers[..n][j].timer);
    if k < j { TimersDiffer(q, k, j); }
  }

  lemma LateAt(q: Queue, n: nat, j: nat)
    requires Indexes(q.heap, q.timers, q.active) && n <= j < |q.timers|
    ensures Position(q.timers[..n], q.timers[j].timer) == n
  {
    hide Indexes;
    var k := Position(q.timers[..n], q.timers[j].timer);
    if k < n { TimersDiffer(q, k, j); }
  }

  lemma NotEarlyIsLate(q: Queue, n: nat, t: Ptr)
    requires Indexes(q.heap, q.timers, q.active) && n <= |q.timers|
    requires t in q.heap && EntryOf(q.heap, t) in q.timers && Position(q.timers[..n], t) == n
    ensures EntryOf(q.heap, t) in q.timers[n..]
  {
    hide Indexes;
    var i :| 0 <= i < |q.timers| && q.timers[i] == EntryOf(q.heap, t);
    assert forall j :: 0 <= j < n ==> q.timers[..n][j] == q.timers[j];
    assert q.timers[n..][i - n] == EntryOf(q.heap, t);
  }

  lemma BeginPlaces(q: Queue, n: nat)
    requires Indexes(q.heap, q.timers, q.active) && Places(q.heap, q.timers, [], 0, q.place) && n <= |q.timers|
    ensures Places(q.heap, q.timers[n..], q.timers[..n], 0, BatchPlaces(q.place, q.timers[..n]))
  {
    hide Indexes, Position, BatchPlaces;
    forall j | 0 <= j < n ensures Position(q.timers[..n], q.timers[..n][j].timer) == j { EarlyAt(q, n, j); }
    forall e | e in q.timers[n..] ensures e in q.timers && Position(q.timers[..n], e.timer) == n {
      var j :| 0 <= j < |q.timers| - n && q.timers[n..][j] == e;
      LateAt(q, n, n + j);
    }
    forall t | t in q.place && q.place[t] == Indexed && Position(q.timers[..n], t) == n
      ensures EntryOf(q.heap, t) in q.timers[n..]
    {
      NotEarlyIsLate(q, n, t);
    }
    BeginPlacesGlue(q, n);
  }

  lemma BeginPlacesGlue(q: Queue, n: nat)
    requires Places(q.heap, q.timers, [], 0, q.place) && n <= |q.timers|
    requires forall j :: 0 <= j < n ==> Position(q.timers[..n], q.timers[..n][j].timer) == j
    requires forall e :: e in q.timers[n..] ==> e in q.timers && Position(q.timers[..n], e.timer) == n
    requires forall t :: t in q.place && q.place[t] == Indexed && Position(q.timers[..n], t) == n ==>
        EntryOf(q.heap, t) in q.timers[n..]
    ensures Places(q.heap, q.timers[n..], q.timers[..n], 0, BatchPlaces(q.place, q.timers[..n]))
  {
    hide Position;
    assert forall j :: 0 <= j < n ==> q.timers[..n][j] in q.timers;
  }

  lemma BeginKeeps(q: Queue, now: int)
    requires Inv(q) && !q.calling
    ensures Inv(Begin(q, now))
  {
    hide Indexes, Places, Sequences, BatchPlaces, ExpiredCount;
    BeginIndexes(q, ExpiredCount(q.timers, now));
    BeginPlaces(q, ExpiredCount(q.timers, now));
  }

  lemma RunKeeps(q: Queue)
    requires Inv(q) && q.ran < |q.batch|
    ensures q.batch[q.ran].timer in q.heap && Inv(RunNext(q))
  {
    hide Indexes, Places, Sequences;
    BatchInHeap(q, 0, q.ran);
  }

  // ---------- runs ----------

  /** Steps of the loop thread and of the clock. Callbacks may add and cancel timers, so
      AddTimer and CancelTimer can happen between CallbackStarts steps. */
  datatype Event =
    | NewTimer(t: Ptr, when: int, delta: nat, repeat: bool)
    | AddTimer(t: Ptr, now: int)
    | CancelTimer(id: Id)
    | FdFires
    | ReadBegins(now: int)
    | CallbackStarts
    | ReadEnds(now: int, later: int)

  ghost predicate Can(q: Queue, ev: Event) {
    match ev
    case NewTimer(t, _, _, _) => t !in q.heap
    case AddTimer(t, _) => t in q.heap && t in q.place && q.place[t] == Pending
    case CancelTimer(_) => true
    case FdFires => q.fd.Armed?
    case ReadBegins(_) => !q.calling
    case CallbackStarts => q.calling && q.ran < |q.batch| && q.batch[q.ran].timer in q.heap
    case ReadEnds(_, _) => q.calling && q.ran == |q.batch|
  }

  ghost function Next(q: Queue, ev: Event): Queue
    requires Can(q, ev)
  {
    match ev
    case NewTimer(t, when, delta, repeat) => Create(q, t, when, delta, repeat)
    case AddTimer(t, now) => AddInLoop(q, t, now)
    case CancelTimer(id) => CancelInLoop(q, id)
    case FdFires => q.(fd := Fired)
    case ReadBegins(now) => Begin(q, now)
    case CallbackStarts => RunNext(q)
    case ReadEnds(now, later) => End(q, now, later)
  }

  /** Both indexes stay in step, and every timer stays in exactly one place, through every
      step: between loop events and inside callbacks alike. */
  lemma NextKeeps(q: Queue, ev: Event)
    requires Inv(q) && Can(q, ev)
    ensures Inv(Next(q, ev))
  {
    hide Inv;
    match ev
    case NewTimer(t, when, delta, repeat) => CreateKeeps(q, t, when, delta, repeat);
    case AddTimer(t, now) => AddKeeps(q, t, now);
    case CancelTimer(id) => CancelKeeps(q, id);
    case FdFires => FireKeeps(q);
    case ReadBegins(now) => BeginKeeps(q, now);
    case CallbackStarts => RunKeeps(q);
    case ReadEnds(now, later) => EndKeeps(q, now, later);
  }

  lemma FireKeeps(q: Queue)
    requires Inv(q)
    ensures Inv(q.(fd := Fired))
  {
    hide Indexes, Places, Sequences;
  }

  ghost predicate Runs(q: Queue, evs: seq<Event>, q': Queue)
    decreases |evs|
  {
    if evs == [] then q' == q else Can(q, evs[0]) && Runs(Next(q, evs[0]), evs[1..], q')
  }

  lemma {:induction false} EveryRun(q: Queue, evs: seq<Event>, q': Queue)
    requires Inv(q) && Runs(q, evs, q')
    ensures Inv(q')
    decreases |evs|
  {
    hide Inv;
    if evs != [] {
      NextKeeps(q, evs[0]);
      EveryRun(Next(q, evs[0]), evs[1..], q');
    }
  }

  // ---------- cancellation ----------

  /** No timer numbered n exists any more, and none will: numbers are not reused. */
  ghost predicate Gone(q: Queue, n: int) {
    n <= q.created && forall t :: t in q.heap ==> q.heap[t].sequence != n
  }

  /** The timer of this id is gone, or it is in the batch being called and marked. */
  ghost predicate Doomed(q: Queue, id: Id) {
    && id.sequence <= q.created
    && forall t :: t in q.heap && q.heap[t].sequence == id.sequence ==>
         t == id.timer && t in q.place && q.place[t].InBatch? && q.calling && id in q.canceling
  }

  /** An id of the timer with this number, alive or not. */
  ghost predicate Genuine(q: Queue, id: Id) {
    && id.sequence <= q.created
    && forall t :: t in q.heap && q.heap[t].sequence == id.sequence ==> t == id.timer
  }

  ghost predicate StillPending(q: Queue, id: Id) {
    id.timer in q.heap && id.timer in q.place && q.heap[id.timer].sequence == id.sequence
      && q.place[id.timer] == Pending
  }

  /** Cancelling takes effect unless the timer's insertion is still queued; then it is lost. */
  lemma CancelDoomsIff(q: Queue, id: Id)
    requires Inv(q) && Genuine(q, id)
    ensures Doomed(CancelInLoop(q, id), id) <==> !StillPending(q, id)
  {
    hide Indexes, Places, Sequences, EraseEntry;
    var t := id.timer;
    if t in q.heap && q.heap[t].sequence == id.sequence {
      IdInActive(q, t);
      PlaceOfTimer(q, t);
    }
    if id in q.active { ActiveIds(q, id); }
  }

  /** A run in which a timer is cancelled while its insertion is queued, and runs all the same. */
  lemma CancelledTimerRuns()
    ensures var id := Id(1, 1);
      var evs := [NewTimer(1, 500, 0, false), CancelTimer(id), AddTimer(1, 0), FdFires, ReadBegins(500),
        CallbackStarts];
      exists q :: Runs(Init(), evs, q) && q.log == [1]
  {
    var evs := [NewTimer(1, 500, 0, false), CancelTimer(Id(1, 1)), AddTimer(1, 0), FdFires, ReadBegins(500),
      CallbackStarts];
    var q1 := Next(Init(), evs[0]);
    var q2 := Next(q1, evs[1]);
    assert q2 == q1;
    var q := LateRun(q2);
    assert evs[1..][1..] == evs[2..];
    assert Runs(q1, evs[1..], q);
    assert Runs(Init(), evs, q);
  }

  // The last four steps of the run above.
  ghost function LateRun(q: Queue): (q': Queue)
    requires q.heap == map[1 := Timer(500, 0, false, 1)] && q.place == map[1 := Pending] && q.log == []
    requires q.timers == [] && q.active == {} && q.canceling == {} && !q.calling && q.batch == []
    ensures Runs(q, [AddTimer(1, 0), FdFires, ReadBegins(500), CallbackStarts], q') && q'.log == [1]
  {
    var evs := [AddTimer(1, 0), FdFires, ReadBegins(500), CallbackStarts];
    var q1 := Next(q, evs[0]);
    var q2 := Next(q1, evs[1]);
    assert q2.timers == [Entry(500, 1)];
    assert ExpiredCount(q2.timers, 500) == 1;
    var q3 := Next(q2, evs[2]);
    assert q3.batch == [Entry(500, 1)];
    var q4 := Next(q3, evs[3]);
    assert evs[1..][1..] == evs[2..] && evs[2..][1..] == evs[3..] && evs[3..][1..] == [];
    assert Runs(q3, evs[3..], q4);
    assert Runs(q2, evs[2..], q4);
    assert Runs(q1, evs[1..], q4);
    q4
  }

  lemma ActiveIds(q: Queue, id: Id)
    requires Indexes(q.heap, q.timers, q.active) && id in q.active
    ensures id.timer in q.heap && q.heap[id.timer].sequence == id.sequence
  {
    hide Sorted;
  }

  // A timer in no index is pending, or in the batch while callbacks run.
  lemma PlaceOfTimer(q: Queue, t: Ptr)
    requires Inv(q) && t in q.heap
    ensures t in q.place && (q.place[t] == Indexed <==> EntryOf(q.heap, t) in q.timers)
    ensures q.place[t].InBatch? ==> q.calling
  {
    hide Indexes, Sequences;
  }

  lemma IdInActive(q: Queue, t: Ptr)
    requires Indexes(q.heap, q.timers, q.active) && t in q.heap
    ensures EntryOf(q.heap, t) in q.timers <==> IdOf(q.heap, t) in q.active
  {
    hide Sorted;
  }

  /** A cancelled indexed timer is deleted at once. */
  lemma CancelIndexedIsGone(q: Queue, id: Id)
    requires Inv(q) && Genuine(q, id) && id in q.active
    ensures Gone(CancelInLoop(q, id), id.sequence)
  {
    hide Sorted, EraseEntry;
  }

  /** An id whose timer is gone, and whose address may have been reused, affects nobody. */
  lemma StaleIdIsHarmless(q: Queue, id: Id)
    requires Inv(q) && (id.timer in q.heap ==> q.heap[id.timer].sequence != id.sequence)
    ensures CancelInLoop(q, id) == q.(canceling := CancelInLoop(q, id).canceling)
    ensures forall t :: t in q.heap ==>
        (IdOf(q.heap, t) in CancelInLoop(q, id).canceling <==> IdOf(q.heap, t) in q.canceling)
  {
    if id in q.active { ActiveIds(q, id); }
    hide Indexes, Places, Sequences, EraseEntry;
  }

  lemma DoomedIsGone(q: Queue, id: Id)
    requires Inv(q) && Doomed(q, id) && !q.calling
    ensures Gone(q, id.sequence)
  {
  }

  // What a step does to the timers that exist: it creates number created + 1, and otherwise
  // only keeps timers, changes their expirations, or deletes them.
  ghost predicate OnlyOld(q: Queue, q': Queue) {
    && q.created <= q'.created
    && forall t :: t in q'.heap ==>
         (t in q.heap && q'.heap[t].sequence == q.heap[t].sequence) || q'.heap[t].sequence > q.created
  }

  lemma {:induction false} RestartFromOld(q: Queue, k: nat, now: int)
    ensures OnlyOld(q, RestartFrom(q, k, now))
    decreases |q.batch| - k
  {
    hide InsertEntry;
    if k < |q.batch| && q.batch[k].timer in q.heap {
      RestartFrame(q, q.batch[k].timer, now);
      RestartFromOld(Restart(q, q.batch[k].timer, now), k + 1, now);
    }
  }

  lemma NextIsOld(q: Queue, ev: Event)
    requires Can(q, ev)
    ensures OnlyOld(q, Next(q, ev))
  {
    hide InsertEntry, EraseEntry, ExpiredCount, BatchPlaces, IdsOf, RestartFrom;
    if ev.ReadEnds? { RestartFromOld(q.(calling := false), 0, ev.now); }
  }

  lemma GoneIsStable(q: Queue, ev: Event, n: int)
    requires Can(q, ev) && Gone(q, n)
    ensures Gone(Next(q, ev), n)
    ensures var l := Next(q, ev).log; l == q.log || (|l| == |q.log| + 1 && l[..|q.log|] == q.log && l[|q.log|] != n)
  {
    NextIsOld(q, ev);
    LogGrows(q, ev);
    hide Next;
  }

  lemma LogGrows(q: Queue, ev: Event)
    requires Can(q, ev)
    ensures var l := Next(q, ev).log;
      if ev.CallbackStarts? then l == q.log + [q.heap[q.batch[q.ran].timer].sequence] else l == q.log
  {
    hide InsertEntry, EraseEntry, ExpiredCount, BatchPlaces, IdsOf, RestartFrom;
    if ev.ReadEnds? { RestartFromLog(q.(calling := false), 0, ev.now); }
  }

  lemma {:induction false} RestartFromLog(q: Queue, k: nat, now: int)
    ensures RestartFrom(q, k, now).log == q.log && RestartFrom(q, k, now).calling == q.calling
    decreases |q.batch| - k
  {
    if k < |q.batch| && q.batch[k].timer in q.heap {
      RestartFrame(q, q.batch[k].timer, now);
      RestartFromLog(Restart(q, q.batch[k].timer, now), k + 1, now);
    }
  }

  /** Once gone, a timer never runs again and never comes back, whatever happens. */
  lemma {:induction false} GoneForGood(q: Queue, evs: seq<Event>, q': Queue, n: int)
    requires Runs(q, evs, q') && Gone(q, n)
    ensures Gone(q', n) && |q.log| <= |q'.log| && q'.log[..|q.log|] == q.log
    ensures forall i :: |q.log| <= i < |q'.log| ==> q'.log[i] != n
    decreases |evs|
  {
    hide Next;
    if evs != [] {
      var q1 := Next(q, evs[0]);
      GoneIsStable(q, evs[0], n);
      GoneForGood(q1, evs[1..], q', n);
    }
  }

  ghost predicate DoomedInBatch(heap: map<Ptr, Timer>, place: map<Ptr, Place>, id: Id) {
    forall t :: t in heap && heap[t].sequence == id.sequence ==> t == id.timer && t in place && place[t].InBatch?
  }

  lemma RestartDooms(q: Queue, t: Ptr, now: int, id: Id)
    requires t in q.heap && id in q.canceling && DoomedInBatch(q.heap, q.place, id)
    ensures DoomedInBatch(Restart(q, t, now).heap, Restart(q, t, now).place, id)
  {
    hide InsertEntry;
  }

  lemma EmptyBatchDooms(q: Queue, id: Id)
    requires InvFrom(q, |q.batch|) && DoomedInBatch(q.heap, q.place, id) && id.sequence <= q.created
    ensures Gone(q, id.sequence)
  {
    hide Indexes, Sequences;
  }

  // Until the end of the callbacks, what is doomed stays doomed; then it is gone.
  lemma {:induction false} RestartFromDooms(q: Queue, k: nat, now: int, id: Id)
    requires InvFrom(q, k) && k <= |q.batch| && id.sequence <= q.created && id in q.canceling
    requires DoomedInBatch(q.heap, q.place, id)
    ensures Gone(RestartFrom(q, k, now), id.sequence)
    decreases |q.batch| - k
  {
    hide Indexes, Places, Sequences, InsertEntry, Restart, DoomedInBatch, Gone;
    if k < |q.batch| {
      RestartKeeps(q, k, now);
      BatchInHeap(q, k, k);
      var t := q.batch[k].timer;
      RestartFrame(q, t, now);
      RestartDooms(q, t, now, id);
      RestartFromDooms(Restart(q, t, now), k + 1, now, id);
    } else {
      EmptyBatchDooms(q, id);
    }
  }

  lemma EndDooms(q: Queue, now: int, later: int, id: Id)
    requires Inv(q) && Doomed(q, id) && q.calling
    ensures Gone(End(q, now, later), id.sequence)
  {
    hide Indexes, Places, Sequences, RestartFrom;
    if id in q.canceling {
      RestartFromDooms(q.(calling := false), 0, now, id);
    } else {
      RestartFromOld(q.(calling := false), 0, now);
    }
  }

  lemma CancelStaysDoomed(q: Queue, other: Id, id: Id)
    requires Inv(q) && Doomed(q, id) && q.calling
    ensures Doomed(CancelInLoop(q, other), id)
  {
    hide Inv, EraseEntry;
  }

  lemma DoomedIsStable(q: Queue, ev: Event, id: Id)
    requires Inv(q) && Can(q, ev) && Doomed(q, id) && q.calling
    ensures Doomed(Next(q, ev), id)
    ensures ev.ReadEnds? ==> Gone(Next(q, ev), id.sequence)
  {
    hide Inv, InsertEntry, Begin, CancelInLoop, End;
    match ev
    case CancelTimer(other) => CancelStaysDoomed(q, other, id);
    case ReadEnds(now, later) => EndDooms(q, now, later, id);
    case _ =>
  }

  lemma DoomedIsUnindexed(q: Queue, id: Id)
    requires Inv(q) && Doomed(q, id)
    ensures id !in q.active
  {
    if id in q.active {
      ActiveIds(q, id);
      IdInActive(q, id.timer);
      PlaceOfTimer(q, id.timer);
      assert false;
    }
  }

  /** A timer cancelled while callbacks run, by itself or by a sibling of its batch, is never
      armed again: it is in no index from then on, and gone once the callbacks are over. */
  lemma {:induction false} DoomedForGood(q: Queue, evs: seq<Event>, q': Queue, id: Id)
    requires Inv(q) && Runs(q, evs, q') && Doomed(q, id)
    ensures Doomed(q', id) && id !in q'.active
    ensures !q'.calling ==> Gone(q', id.sequence)
    decreases |evs|
  {
    hide Next, Inv, Can;
    if evs == [] {
      DoomedIsUnindexed(q, id);
      if !q.calling { DoomedIsGone(q, id); }
    } else {
      var q1 := Next(q, evs[0]);
      NextKeeps(q, evs[0]);
      if q.calling {
        DoomedIsStable(q, evs[0], id);
      } else {
        DoomedIsGone(q, id);
        GoneIsStable(q, evs[0], id.sequence);
      }
      DoomedForGood(q1, evs[1..], q', id);
    }
  }

  // ---------- restarting ----------

  /** The timer repeats, and was not cancelled since the callbacks began. */
  ghost predicate Restarts(q: Queue, t: Ptr) {
    t in q.heap && q.heap[t].repeat && IdOf(q.heap, t) !in q.canceling
  }

  /** In r the timer is indexed for one interval after now, under its old number. */
  ghost predicate Rearmed(q: Queue, r: Queue, t: Ptr, now: int) {
    && t in q.heap && t in r.heap && r.heap[t] == q.heap[t].(expiration := now + q.heap[t].delta)
    && Entry(now + q.heap[t].delta, t) in r.timers && Id(t, q.heap[t].sequence) in r.active
    && t in r.place && r.place[t] == Indexed
  }

  // The timer is as it was.
  ghost predicate Same(q: Queue, r: Queue, t: Ptr) {
    && t in q.heap && t in r.heap && r.heap[t] == q.heap[t]
    && t in q.place && t in r.place && r.place[t] == q.place[t]
  }

  ghost predicate OutOfBatch(q: Queue, t: Ptr) {
    t in q.heap && t in q.place && !q.place[t].InBatch?
  }

  lemma RestartOthers(q: Queue, t: Ptr, now: int, u: Ptr)
    requires t in q.heap && u != t && u in q.heap && u in q.place
    ensures Same(q, Restart(q, t, now), u) && (Restarts(q, u) <==> Restarts(Restart(q, t, now), u))
  {
    hide InsertEntry;
  }

  // What reset does to a timer of the batch, apart from the indexes.
  ghost predicate Rescheduled(q: Queue, r: Queue, t: Ptr, now: int) {
    if Restarts(q, t) then
      && t in r.heap && r.heap[t] == q.heap[t].(expiration := now + q.heap[t].delta)
      && t in r.place && r.place[t] == Indexed
    else t !in r.heap
  }

  lemma RescheduledThen(q: Queue, q1: Queue, r: Queue, u: Ptr, now: int)
    requires Same(q, q1, u) && (Restarts(q, u) <==> Restarts(q1, u)) && Rescheduled(q1, r, u, now)
    ensures Rescheduled(q, r, u, now)
  {
  }

  lemma RescheduledStays(q: Queue, q1: Queue, r: Queue, t: Ptr, now: int)
    requires Rescheduled(q, q1, t, now) && r.heap.Keys <= q1.heap.Keys && (OutOfBatch(q1, t) ==> Same(q1, r, t))
    ensures Rescheduled(q, r, t, now)
  {
  }

  lemma OutThen(q: Queue, q1: Queue, r: Queue, u: Ptr)
    requires OutOfBatch(q, u) && Same(q, q1, u) && (OutOfBatch(q1, u) ==> Same(q1, r, u))
    ensures Same(q, r, u)
  {
  }

  lemma RestartOwn(q: Queue, t: Ptr, now: int)
    requires t in q.heap
    ensures Restart(q, t, now).heap.Keys <= q.heap.Keys && Rescheduled(q, Restart(q, t, now), t, now)
  {
    hide InsertEntry;
  }

  lemma {:induction false} RestartFromHeap(q: Queue, k: nat, now: int)
    requires InvFrom(q, k) && k <= |q.batch|
    ensures var r := RestartFrom(q, k, now);
      && r.heap.Keys <= q.heap.Keys
      && (forall j :: k <= j < |q.batch| ==> Rescheduled(q, r, q.batch[j].timer, now))
      && (forall t :: OutOfBatch(q, t) ==> Same(q, r, t))
    decreases |q.batch| - k
  {
    hide Indexes, Sequences, Places, Restart, Restarts, Rescheduled, Same, OutOfBatch;
    if k < |q.batch| {
      var t := q.batch[k].timer;
      BatchInHeap(q, k, k);
      RestartKeeps(q, k, now);
      RestartFrame(q, t, now);
      RestartOwn(q, t, now);
      var q1, r := Restart(q, t, now), RestartFrom(q, k, now);
      RestartFromHeap(q1, k + 1, now);
      assert r == RestartFrom(q1, k + 1, now);
      RescheduledStays(q, q1, r, t, now);
      forall j | k < j < |q.batch| ensures Rescheduled(q, r, q.batch[j].timer, now) {
        BatchInHeap(q, k, j);
        RestartOthers(q, t, now, q.batch[j].timer);
        RescheduledThen(q, q1, r, q.batch[j].timer, now);
      }
      forall u | OutOfBatch(q, u) ensures Same(q, r, u) {
        NotOut(q, t, u, k);
        RestartOthers(q, t, now, u);
        OutThen(q, q1, r, u);
      }
    } else {
      forall u | OutOfBatch(q, u) ensures Same(q, RestartFrom(q, k, now), u) { SameAsIs(q, u); }
    }
  }

  lemma NotOut(q: Queue, t: Ptr, u: Ptr, k: nat)
    requires t in q.place && q.place[t] == InBatch(k) && OutOfBatch(q, u)
    ensures u != t && u in q.heap && u in q.place
  {
  }

  lemma SameAsIs(q: Queue, u: Ptr)
    requires OutOfBatch(q, u)
    ensures Same(q, q, u)
  {
  }

  lemma IndexedIsActive(r: Queue, t: Ptr)
    requires InvFrom(r, |r.batch|) && t in r.heap && t in r.place && r.place[t] == Indexed
    ensures EntryOf(r.heap, t) in r.timers && IdOf(r.heap, t) in r.active
  {
    hide Sorted, Sequences;
  }

  lemma EndFrame(q: Queue, now: int, later: int)
    ensures var r, t := RestartFrom(q.(calling := false), 0, now), End(q, now, later);
      t.heap == r.heap && t.timers == r.timers && t.active == r.active && t.place == r.place
  {
    hide RestartFrom;
  }

  /** reset: every timer of the batch that repeats and was not cancelled is indexed again, for
      one interval after now and under its old number; every other timer of the batch is gone;
      and no other timer is touched. */
  lemma EndRestartsIff(q: Queue, now: int, later: int)
    requires Inv(q)
    ensures var r := End(q, now, later);
      && (forall j :: 0 <= j < |q.batch| ==>
            if Restarts(q, q.batch[j].timer) then Rearmed(q, r, q.batch[j].timer, now) else q.batch[j].timer !in r.heap)
      && (forall t :: OutOfBatch(q, t) ==> Same(q, r, t))
      && r.heap.Keys <= q.heap.Keys
  {
    hide Indexes, Places, Sequences, RestartFrom, End;
    var q0 := q.(calling := false);
    RestartFromHeap(q0, 0, now);
    RestartFromKeeps(q0, 0, now);
    EndFrame(q, now, later);
    var r := RestartFrom(q0, 0, now);
    forall j | 0 <= j < |q.batch|
      ensures var t := q.batch[j].timer; if Restarts(q, t) then Rearmed(q, r, t, now) else t !in r.heap
    {
      assert Rescheduled(q0, r, q.batch[j].timer, now);
      if Restarts(q, q.batch[j].timer) { IndexedIsActive(r, q.batch[j].timer); }
    }
    forall t | OutOfBatch(q, t) ensures Same(q, r, t) { assert OutOfBatch(q0, t); }
  }

  // ---------- what a step does to each timer ----------

  /** The step ends this timer: it is cancelled while indexed, or it was run and does not
      restart. */
  ghost predicate Ends(q: Queue, ev: Event, t: Ptr)
    requires t in q.heap && t in q.place
  {
    || (ev == CancelTimer(IdOf(q.heap, t)) && q.place[t] == Indexed)
    || (ev.ReadEnds? && q.place[t].InBatch? && !Restarts(q, t))
  }

  /** What becomes of timer t in a step from q to r: it goes exactly if the step ends it, its
      expiration changes exactly if it is restarted, and it enters and leaves the indexes as it
      should. */
  ghost predicate Fated(q: Queue, r: Queue, ev: Event, t: Ptr)
    requires t in q.heap && t in q.place
  {
    if Ends(q, ev, t) then t !in r.heap
    else if ev.ReadEnds? && q.place[t].InBatch? then Rearmed(q, r, t, ev.now)
    else
      && t in r.heap && r.heap[t] == q.heap[t] && t in r.place
      && if ev.AddTimer? && ev.t == t then r.place[t] == Indexed
         else if ev.ReadBegins? && q.place[t] == Indexed && q.heap[t].expiration <= ev.now then r.place[t].InBatch?
         else r.place[t] == q.place[t]
  }

  /** The fate of every timer in every step. */
  lemma TimerFate(q: Queue, ev: Event, t: Ptr)
    requires Inv(q) && Can(q, ev) && t in q.heap
    ensures t in q.place && Fated(q, Next(q, ev), ev, t)
  {
    hide Inv, InsertEntry, EraseEntry, Begin, End, CancelInLoop, AddInLoop, Restarts, Rearmed, Fated;
    PlaceOfTimer(q, t);
    match ev
    case AddTimer(u, now) => AddFate(q, u, now, t);
    case CancelTimer(id) => CancelFate(q, id, t);
    case ReadBegins(now) => BeginFate(q, now, t);
    case ReadEnds(now, later) => EndFate(q, now, later, t);
    case _ => OtherFate(q, ev, t);
  }

  lemma OtherFate(q: Queue, ev: Event, t: Ptr)
    requires Can(q, ev) && t in q.heap && t in q.place && (ev.NewTimer? || ev.FdFires? || ev.CallbackStarts?)
    ensures Fated(q, Next(q, ev), ev, t)
  {
  }

  lemma AddFate(q: Queue, u: Ptr, now: int, t: Ptr)
    requires u in q.heap && t in q.heap && t in q.place
    ensures Fated(q, AddInLoop(q, u, now), AddTimer(u, now), t)
  {
    hide InsertEntry;
  }

  lemma CancelFate(q: Queue, id: Id, t: Ptr)
    requires Inv(q) && t in q.heap && t in q.place
    ensures Fated(q, CancelInLoop(q, id), CancelTimer(id), t)
  {
    hide Sorted, Sequences, EraseEntry;
    PlaceOfTimer(q, t);
    IdInActive(q, t);
    if id in q.active { ActiveIds(q, id); }
  }

  lemma BeginFate(q: Queue, now: int, t: Ptr)
    requires Inv(q) && !q.calling && t in q.heap && t in q.place
    ensures Fated(q, Begin(q, now), ReadBegins(now), t)
  {
    hide Indexes, Places, Sequences, Position, IdsOf, Sorted, ExpiredCount;
    var n := ExpiredCount(q.timers, now);
    IndexesSorted(q);
    ExpiredFacts(q.timers, now);
    PlaceOfTimer(q, t);
    if q.place[t] == Indexed {
      var i :| 0 <= i < |q.timers| && q.timers[i] == EntryOf(q.heap, t);
      if i < n { EarlyAt(q, n, i); assert q.timers[..n][i] == q.timers[i]; } else { LateAt(q, n, i); }
    } else {
      NotDueAt(q, n, t);
    }
  }

  // A timer in no index is not in a batch taken from them.
  lemma NotDueAt(q: Queue, n: nat, t: Ptr)
    requires Indexes(q.heap, q.timers, q.active) && n <= |q.timers| && t in q.heap && EntryOf(q.heap, t) !in q.timers
    ensures Position(q.timers[..n], t) == n
  {
    hide Sorted;
    forall k | 0 <= k < n ensures q.timers[..n][k].timer != t {
      assert q.timers[k] in q.timers && q.timers[..n][k] == q.timers[k];
    }
  }

  lemma EndFate(q: Queue, now: int, later: int, t: Ptr)
    requires Inv(q) && t in q.heap && t in q.place
    ensures Fated(q, End(q, now, later), ReadEnds(now, later), t)
  {
    hide Indexes, Sequences, End, Restarts, Rearmed;
    EndRestartsIff(q, now, later);
    if q.place[t].InBatch? {
      assert q.batch[q.place[t].k].timer == t;
    } else {
      assert OutOfBatch(q, t);
    }
  }

  /** Timers come only from addTimer, with the values given and the next number. */
  lemma OnlyNewTimers(q: Queue, ev: Event, t: Ptr)
    requires Inv(q) && Can(q, ev) && t !in q.heap && t in Next(q, ev).heap
    ensures var r := Next(q, ev); var w := r.heap[t];
      && ev == NewTimer(t, w.expiration, w.delta, w.repeat) && w.sequence == q.created + 1 == r.created
      && t in r.place && r.place[t] == Pending
  {
    hide Inv, InsertEntry, EraseEntry, ExpiredCount, BatchPlaces, IdsOf, End;
    if ev.ReadEnds? { EndRestartsIff(q, ev.now, ev.later); }
  }

  /** A repeating timer lives on, under its number and with its interval, for as long as nobody
      cancels it. */
  lemma {:induction false} RepeatingTimerStays(q: Queue, evs: seq<Event>, q': Queue, t: Ptr)
    requires Inv(q) && Runs(q, evs, q') && Restarts(q, t)
    requires forall i :: 0 <= i < |evs| ==> evs[i] != CancelTimer(IdOf(q.heap, t))
    ensures Restarts(q', t) && q'.heap[t] == q.heap[t].(expiration := q'.heap[t].expiration)
    decreases |evs|
  {
    hide Inv, Can, Next;
    if evs != [] {
      NextKeeps(q, evs[0]);
      TimerFate(q, evs[0], t);
      CancelingGrows(q, evs[0]);
      RepeatingTimerStays(Next(q, evs[0]), evs[1..], q', t);
    }
  }

  lemma CancelingGrows(q: Queue, ev: Event)
    requires Can(q, ev)
    ensures forall id :: id in Next(q, ev).canceling ==> id in q.canceling || ev == CancelTimer(id)
  {
    hide InsertEntry, EraseEntry, ExpiredCount, BatchPlaces, IdsOf, RestartFrom;
    if ev.ReadEnds? { RestartFromCanceling(q.(calling := false), 0, ev.now); }
  }

  lemma {:induction false} RestartFromCanceling(q: Queue, k: nat, now: int)
    ensures RestartFrom(q, k, now).canceling == q.canceling
    decreases |q.batch| - k
  {
    if k < |q.batch| && q.batch[k].timer in q.heap {
      RestartFrame(q, q.batch[k].timer, now);
      RestartFromCanceling(Restart(q, q.batch[k].timer, now), k + 1, now);
    }
  }

  // ---------- the descriptor ----------

  ghost predicate Positive(heap: map<Ptr, Timer>) {
    forall t :: t in heap ==> heap[t].expiration > 0
  }

  /** The descriptor has fired, or will: by the earliest expiration, or within the 100
      microseconds that howMuchTimeFromNow waits at least. */
  ghost predicate Timely(fd: Descriptor, timers: seq<Entry>) {
    timers != [] ==>
      fd.Fired? || (fd.Armed? && fd.setAt + 100 <= fd.at && (fd.at <= timers[0].when || fd.at == fd.setAt + 100))
  }

  ghost predicate FdOk(q: Queue) {
    Positive(q.heap) && (!q.calling ==> Timely(q.fd, q.timers))
  }

  /** The times a step brings in are after the epoch. */
  ghost predicate AfterEpoch(ev: Event) {
    match ev
    case NewTimer(_, when, _, _) => when > 0
    case ReadEnds(now, _) => now > 0
    case _ => true
  }

  lemma InsertHead(s: seq<Entry>, e: Entry)
    ensures InsertEntry(s, e) != []
    ensures InsertEntry(s, e)[0].when == if s == [] || e.when < s[0].when then e.when else s[0].when
  {
  }

  lemma EraseHead(s: seq<Entry>, e: Entry)
    requires Sorted(s) && EraseEntry(s, e) != []
    ensures s != [] && s[0].when <= EraseEntry(s, e)[0].when
  {
    if s[0] == e { assert Less(s[0], s[1]); }
  }

  lemma AddIsTimely(q: Queue, t: Ptr, now: int)
    requires FdOk(q) && t in q.heap
    ensures FdOk(AddInLoop(q, t, now))
  {
    hide InsertEntry;
    InsertHead(q.timers, EntryOf(q.heap, t));
  }

  lemma CancelIsTimely(q: Queue, id: Id)
    requires Inv(q) && FdOk(q)
    ensures FdOk(CancelInLoop(q, id))
  {
    hide Indexes, Places, Sequences, EraseEntry, Sorted;
    IndexesSorted(q);
    if id in q.active && id.timer in q.heap {
      var e := EntryOf(q.heap, id.timer);
      if EraseEntry(q.timers, e) != [] { EraseHead(q.timers, e); }
    }
  }

  lemma {:induction false} RestartFromPositive(q: Queue, k: nat, now: int)
    requires Positive(q.heap) && now > 0
    ensures Positive(RestartFrom(q, k, now).heap)
    decreases |q.batch| - k
  {
    hide InsertEntry;
    if k < |q.batch| && q.batch[k].timer in q.heap {
      RestartFrame(q, q.batch[k].timer, now);
      RestartFromPositive(Restart(q, q.batch[k].timer, now), k + 1, now);
    }
  }

  lemma EndIsTimely(q: Queue, now: int, later: int)
    requires Inv(q) && FdOk(q) && now > 0
    ensures FdOk(End(q, now, later))
  {
    hide RestartFrom, Inv;
    EndKeeps(q, now, later);
    RestartFromPositive(q.(calling := false), 0, now);
    var r := End(q, now, later);
    if r.timers != [] { HeadInHeap(r); }
  }

  lemma HeadInHeap(q: Queue)
    requires Inv(q) && q.timers != []
    ensures q.timers[0].timer in q.heap && q.heap[q.timers[0].timer].expiration == q.timers[0].when
  {
    hide Sorted, Places, Sequences;
  }

  // howMuchTimeFromNow, from the outside: the later of the expiration and 100 microseconds on.
  ghost predicate ArmedFor(fd: Descriptor, when: int, now: int) {
    fd == Armed(if when < now + 100 then now + 100 else when, now)
  }

  /** The descriptor is set for the earliest timer when that changes by an addition and whenever
      callbacks are over; otherwise only its firing and the reading of it change it. */
  lemma FdFate(q: Queue, ev: Event)
    requires Inv(q) && Can(q, ev) && FdOk(q) && AfterEpoch(ev)
    ensures var r := Next(q, ev);
      if ev.AddTimer? && (q.timers == [] || q.heap[ev.t].expiration < q.timers[0].when) then
        ArmedFor(r.fd, q.heap[ev.t].expiration, ev.now)
      else if ev.ReadEnds? && r.timers != [] then ArmedFor(r.fd, r.timers[0].when, ev.later)
      else if ev.FdFires? then r.fd == Fired
      else if ev.ReadBegins? && q.fd == Fired then r.fd == Disarmed
      else r.fd == q.fd
  {
    hide Inv, InsertEntry, EraseEntry, ExpiredCount, BatchPlaces, IdsOf, RestartFrom;
    if ev.ReadEnds? { EndArms(q, ev.now, ev.later); }
  }

  lemma EndArms(q: Queue, now: int, later: int)
    requires Inv(q) && FdOk(q) && now > 0
    ensures var r := End(q, now, later);
      if r.timers != [] then ArmedFor(r.fd, r.timers[0].when, later) else r.fd == q.fd
  {
    hide RestartFrom, Inv;
    EndKeeps(q, now, later);
    RestartFromPositive(q.(calling := false), 0, now);
    RestartFromFd(q.(calling := false), 0, now);
    var r := End(q, now, later);
    if r.timers != [] { HeadInHeap(r); }
  }

  lemma {:induction false} RestartFromFd(q: Queue, k: nat, now: int)
    ensures RestartFrom(q, k, now).fd == q.fd
    decreases |q.batch| - k
  {
    if k < |q.batch| && q.batch[k].timer in q.heap {
      RestartFrame(q, q.batch[k].timer, now);
      RestartFromFd(Restart(q, q.batch[k].timer, now), k + 1, now);
    }
  }

  lemma StepIsTimely(q: Queue, ev: Event)
    requires Inv(q) && Can(q, ev) && FdOk(q) && AfterEpoch(ev)
    ensures FdOk(Next(q, ev))
  {
    hide Inv, InsertEntry, EraseEntry, ExpiredCount, BatchPlaces, IdsOf, RestartFrom, AddInLoop, CancelInLoop, End;
    match ev
    case AddTimer(t, now) => AddIsTimely(q, t, now);
    case CancelTimer(id) => CancelIsTimely(q, id);
    case ReadEnds(now, later) => EndIsTimely(q, now, later);
    case _ =>
  }

  lemma {:induction false} RunKeepsFd(q: Queue, evs: seq<Event>, q': Queue)
    requires Inv(q) && FdOk(q) && Runs(q, evs, q') && forall i :: 0 <= i < |evs| ==> AfterEpoch(evs[i])
    ensures FdOk(q')
    decreases |evs|
  {
    hide Next, Inv, Can, FdOk, AfterEpoch;
    if evs != [] {
      NextKeeps(q, evs[0]);
      StepIsTimely(q, evs[0]);
      RunKeepsFd(Next(q, evs[0]), evs[1..], q');
    }
  }

  /** From a new queue, between loop events, whenever timers exist the descriptor has fired or
      is armed: across adds, cancellation of the earliest, adds and cancels made by callbacks, and repeating
      timers. It fires in time for the earliest timer exactly if that is due at least 100
      microseconds after the arming, and otherwise exactly 100 microseconds after it. */
  lemma EveryRunIsTimely(evs: seq<Event>, q': Queue)
    requires Runs(Init(), evs, q') && forall i :: 0 <= i < |evs| ==> AfterEpoch(evs[i])
    ensures !q'.calling && q'.timers != [] ==> q'.fd.Fired? || q'.fd.Armed?
    ensures !q'.calling && q'.timers != [] && q'.fd.Armed? ==>
      var when, fd := q'.timers[0].when, q'.fd;
      && (fd.at <= when <==> when - fd.setAt >= 100)
      && (fd.at > when ==> fd.at == fd.setAt + 100)
      && fd.at - 100 <= if when < fd.setAt then fd.setAt else when
  {
    InitInv();
    hide Inv, Runs;
    RunKeepsFd(Init(), evs, q');
  }
}
