/**
 The two pollers as values, beside what they both stand for: the registered channels and
 their event masks. poll keeps an array of slots with a back-index in each channel; epoll
 keeps a registration state in each channel and a table in the kernel.
 */
module PollerModel {

  type Fd = nat
  type Mask = nat

  /** A channel object: several may have had the same descriptor over time. */
  datatype Chan = Chan(id: nat, fd: Fd)

  /** What the loop asks a poller for: the channel's mask is now `mask`, or it goes away. */
  datatype Op = Update(c: Chan, mask: Mask) | Remove(c: Chan)

  // status_ of a channel that no poller has touched
  const NEW: int := -1

  /** `status` holds the status_ fields that differ from NEW. */
  function StatusOf(status: map<Chan, int>, c: Chan): int {
    if c in status then status[c] else NEW
  }

  // ---------- what both stand for ----------

  /** Registered channels with their masks, and the channels that were removed. */
  datatype Registry = Registry(masks: map<Chan, Mask>, retired: set<Chan>)

  /** Descriptors of registered channels are distinct, only registered channels are removed,
      and a removed channel object is not used again. */
  ghost predicate Can(r: Registry, op: Op) {
    match op
    case Update(c, _) => c !in r.retired && forall d :: d in r.masks && d.fd == c.fd ==> d == c
    case Remove(c) => c in r.masks
  }

  function Apply(r: Registry, op: Op): Registry {
    match op
    case Update(c, mask) => r.(masks := r.masks[c := mask])
    case Remove(c) => Registry(r.masks - {c}, r.retired + {c})
  }

  /** Some registered channel wants exactly these events of this descriptor. */
  ghost predicate Wanted(r: Registry, fd: Fd, mask: Mask) {
    mask != 0 && exists c :: c in r.masks && c.fd == fd && r.masks[c] == mask
  }

  // ---------- poll ----------

  datatype Slot = Slot(fd: int, events: Mask)

  datatype Poll = Poll(slots: seq<Slot>, channels: map<Fd, Chan>, status: map<Chan, int>)

  /** The descriptor of a slot, also when it is switched off as -fd - 1. */
  function Decode(fd: int): Fd {
    if fd < 0 then -fd - 1 else fd
  }

  function Encode(fd: Fd, mask: Mask): int {
    if mask == 0 then -(fd as int) - 1 else fd as int
  }

  /** The array accesses of the code are in range. */
  ghost predicate PollSafe(p: Poll, op: Op) {
    match op
    case Update(c, _) => StatusOf(p.status, c) < |p.slots|
    case Remove(c) =>
      && 0 <= StatusOf(p.status, c) < |p.slots|
      && (StatusOf(p.status, c) < |p.slots| - 1 ==> Decode(p.slots[|p.slots| - 1].fd) in p.channels - {c.fd})
  }

  function PollUpdate(p: Poll, c: Chan, mask: Mask): Poll
    requires PollSafe(p, Update(c, mask))
  {
    var idx := StatusOf(p.status, c);
    if idx < 0 then
      Poll(p.slots + [Slot(c.fd, mask)], p.channels[c.fd := c], p.status[c := |p.slots|])
    else
      p.(slots := p.slots[idx := Slot(Encode(c.fd, mask), mask)])
  }

  function PollRemove(p: Poll, c: Chan): Poll
    requires PollSafe(p, Remove(c))
  {
    var idx := StatusOf(p.status, c);
    var last := |p.slots| - 1;
    var channels := p.channels - {c.fd};
    if idx == last then
      Poll(p.slots[..last], channels, p.status)
    else
      Poll(p.slots[idx := p.slots[last]][..last], channels, p.status[channels[Decode(p.slots[last].fd)] := idx])
  }

  function PollApply(p: Poll, op: Op): Poll
    requires PollSafe(p, op)
  {
    match op
    case Update(c, mask) => PollUpdate(p, c, mask)
    case Remove(c) => PollRemove(p, c)
  }

  /** Slots, channels_ and status_ are a bijection. */
  ghost predicate Linked(p: Poll) {
    && (forall fd {:trigger p.channels[fd]} :: fd in p.channels ==>
          p.channels[fd].fd == fd &&
          0 <= StatusOf(p.status, p.channels[fd]) < |p.slots|
            && Decode(p.slots[StatusOf(p.status, p.channels[fd])].fd) == fd)
    && (forall i {:trigger p.slots[i]} :: 0 <= i < |p.slots| ==>
          Decode(p.slots[i].fd) in p.channels && StatusOf(p.status, p.channels[Decode(p.slots[i].fd)]) == i)
  }

  /** channels_ holds the registered channels. */
  ghost predicate Listed(channels: map<Fd, Chan>, masks: map<Chan, Mask>) {
    && (forall c :: c in masks <==> c.fd in channels && channels[c.fd] == c)
    && (forall fd :: fd in channels ==> channels[fd].fd == fd)
  }

  /** Each registered channel's slot has its mask, and only empty masks are switched off. */
  ghost predicate Masked(p: Poll, masks: map<Chan, Mask>) {
    && (forall c :: c in masks ==>
          0 <= StatusOf(p.status, c) < |p.slots| && p.slots[StatusOf(p.status, c)].events == masks[c])
    && (forall i :: 0 <= i < |p.slots| && p.slots[i].fd < 0 ==> p.slots[i].events == 0)
  }

  ghost predicate Unused(status: map<Chan, int>, r: Registry) {
    forall c :: c !in r.masks && c !in r.retired ==> StatusOf(status, c) == NEW
  }

  ghost predicate PollOk(p: Poll, r: Registry) {
    Linked(p) && Listed(p.channels, r.masks) && Masked(p, r.masks) && Unused(p.status, r)
  }

  /** ::poll is asked for these events: negative descriptors are skipped by the kernel. */
  ghost predicate PollWatches(p: Poll, fd: Fd, mask: Mask) {
    mask != 0 && exists i :: 0 <= i < |p.slots| && p.slots[i] == Slot(fd, mask)
  }

  lemma ListedUpdate(channels: map<Fd, Chan>, r: Registry, c: Chan, mask: Mask)
    requires Listed(channels, r.masks) && Can(r, Update(c, mask))
    ensures Listed(channels[c.fd := c], r.masks[c := mask])
    ensures c in r.masks ==> channels[c.fd := c] == channels
    ensures c !in r.masks ==> c.fd !in channels
  {
    if c.fd in channels { assert channels[c.fd] in r.masks; }
  }

  lemma ListedRemove(channels: map<Fd, Chan>, masks: map<Chan, Mask>, c: Chan)
    requires Listed(channels, masks) && c in masks
    ensures Listed(channels - {c.fd}, masks - {c})
  {
  }

  lemma UpdateLinks(p: Poll, c: Chan, mask: Mask)
    requires Linked(p) && PollSafe(p, Update(c, mask))
    requires if StatusOf(p.status, c) < 0 then c.fd !in p.channels else c.fd in p.channels && p.channels[c.fd] == c
    ensures Linked(PollUpdate(p, c, mask))
  {
  }

  lemma UpdateMasks(p: Poll, r: Registry, c: Chan, mask: Mask)
    requires Linked(p) && Listed(p.channels, r.masks) && Masked(p, r.masks) && PollSafe(p, Update(c, mask))
    requires StatusOf(p.status, c) < 0 <==> c !in r.masks
    ensures Masked(PollUpdate(p, c, mask), r.masks[c := mask])
  {
    forall d | d in r.masks && d != c ensures StatusOf(p.status, d) != StatusOf(p.status, c) {
      assert p.channels[d.fd] == d;
      if c in r.masks { assert p.channels[c.fd] == c; }
    }
  }

  lemma PollUpdateKeeps(p: Poll, r: Registry, c: Chan, mask: Mask)
    requires PollOk(p, r) && Can(r, Update(c, mask))
    ensures PollSafe(p, Update(c, mask)) && PollOk(PollUpdate(p, c, mask), Apply(r, Update(c, mask)))
  {
    hide Linked, Listed, Masked;
    MaskedStatus(p, r, c);
    ListedUpdate(p.channels, r, c, mask);
    ListedSays(p.channels, r.masks, c);
    UpdateLinks(p, c, mask);
    UpdateMasks(p, r, c, mask);
  }

  lemma MaskedStatus(p: Poll, r: Registry, c: Chan)
    requires Masked(p, r.masks)
    ensures c in r.masks ==> 0 <= StatusOf(p.status, c) < |p.slots|
  {
  }

  lemma ListedSays(channels: map<Fd, Chan>, masks: map<Chan, Mask>, c: Chan)
    requires Listed(channels, masks)
    ensures c in masks <==> c.fd in channels && channels[c.fd] == c
  {
  }

  // The channel whose slot is the last.
  lemma LastSlot(p: Poll, c: Chan)
    requires Linked(p) && c.fd in p.channels && p.channels[c.fd] == c
    ensures PollSafe(p, Remove(c))
    ensures var d := p.channels[Decode(p.slots[|p.slots| - 1].fd)];
      && StatusOf(p.status, d) == |p.slots| - 1
      && (d == c <==> StatusOf(p.status, c) == |p.slots| - 1)
  {
    assert Decode(p.slots[StatusOf(p.status, c)].fd) == c.fd;
    assert p.slots[|p.slots| - 1] == p.slots[|p.slots| - 1];
  }

  lemma RemoveLinks(p: Poll, c: Chan)
    requires Linked(p) && c.fd in p.channels && p.channels[c.fd] == c
    ensures PollSafe(p, Remove(c)) && Linked(PollRemove(p, c))
  {
    LastSlot(p, c);
  }

  // Distinct registered channels have distinct slots.
  lemma StatusesDiffer(p: Poll, c: Chan, d: Chan)
    requires Linked(p) && c != d
    requires c.fd in p.channels && p.channels[c.fd] == c && d.fd in p.channels && p.channels[d.fd] == d
    ensures StatusOf(p.status, c) != StatusOf(p.status, d)
  {
  }

  lemma RemoveMaskOf(p: Poll, c: Chan, d: Chan)
    requires Linked(p) && PollSafe(p, Remove(c)) && c != d
    requires c.fd in p.channels && p.channels[c.fd] == c && d.fd in p.channels && p.channels[d.fd] == d
    ensures var p' := PollRemove(p, c);
      0 <= StatusOf(p'.status, d) < |p'.slots| && p'.slots[StatusOf(p'.status, d)] == p.slots[StatusOf(p.status, d)]
  {
    LastSlot(p, c);
    StatusesDiffer(p, c, d);
    var last := p.channels[Decode(p.slots[|p.slots| - 1].fd)];
    if last != d { assert StatusOf(p.status, d) != |p.slots| - 1; }
  }

  lemma RemoveMasks(p: Poll, r: Registry, c: Chan)
    requires Linked(p) && Listed(p.channels, r.masks) && Masked(p, r.masks) && c in r.masks
    ensures PollSafe(p, Remove(c)) && Masked(PollRemove(p, c), r.masks - {c})
  {
    hide Linked;
    LastSlot(p, c);
    forall d | d in r.masks && d != c
      ensures var p' := PollRemove(p, c);
        0 <= StatusOf(p'.status, d) < |p'.slots| && p'.slots[StatusOf(p'.status, d)] == p.slots[StatusOf(p.status, d)]
    {
      RemoveMaskOf(p, c, d);
    }
  }

  lemma PollRemoveKeeps(p: Poll, r: Registry, c: Chan)
    requires PollOk(p, r) && Can(r, Remove(c))
    ensures PollSafe(p, Remove(c)) && PollOk(PollRemove(p, c), Apply(r, Remove(c)))
  {
    hide Linked, Listed, Masked;
    ListedSays(p.channels, r.masks, c);
    ListedRemove(p.channels, r.masks, c);
    RemoveLinks(p, c);
    RemoveMasks(p, r, c);
    LastSlot(p, c);
    LastIsRegistered(p, r);
  }

  lemma LastIsRegistered(p: Poll, r: Registry)
    requires Linked(p) && Listed(p.channels, r.masks) && p.slots != []
    ensures Decode(p.slots[|p.slots| - 1].fd) in p.channels && p.channels[Decode(p.slots[|p.slots| - 1].fd)] in r.masks
  {
    assert p.slots[|p.slots| - 1] == p.slots[|p.slots| - 1];
  }

  lemma PollWatchesWanted(p: Poll, r: Registry, fd: Fd, mask: Mask)
    requires PollOk(p, r)
    ensures PollWatches(p, fd, mask) <==> Wanted(r, fd, mask)
  {
    if Wanted(r, fd, mask) {
      var c :| c in r.masks && c.fd == fd && r.masks[c] == mask;
      assert p.slots[StatusOf(p.status, c)] == Slot(fd, mask);
    }
    if PollWatches(p, fd, mask) {
      var i :| 0 <= i < |p.slots| && p.slots[i] == Slot(fd, mask);
      assert p.channels[fd] in r.masks;
    }
  }

  /** An update of a registered channel switches its slot off exactly when the mask is empty, and
      on again with the next; a new channel's slot starts with its descriptor, whatever the mask.
      The other slots stay. */
  lemma PollUpdateSwitches(p: Poll, r: Registry, c: Chan, mask: Mask)
    requires PollOk(p, r) && Can(r, Update(c, mask))
    ensures PollSafe(p, Update(c, mask))
    ensures var p' := PollUpdate(p, c, mask);
      && 0 <= StatusOf(p'.status, c) < |p'.slots| && p'.slots[StatusOf(p'.status, c)].events == mask
      && (p'.slots[StatusOf(p'.status, c)].fd < 0 <==> c in r.masks && mask == 0)
      && Decode(p'.slots[StatusOf(p'.status, c)].fd) == c.fd
      && forall i :: 0 <= i < |p.slots| && i != StatusOf(p'.status, c) ==> i < |p'.slots| && p'.slots[i] == p.slots[i]
  {
    hide Linked, Listed;
    MaskedStatus(p, r, c);
  }

  // ---------- epoll ----------

  const ADDED: int := 1
  const DELETED: int := 2

  datatype Ctl = Add | Modify | Delete

  datatype Epoll = Epoll(channels: map<Fd, Chan>, status: map<Chan, int>, kernel: map<Fd, Mask>)

  /** epoll_ctl answers EEXIST or ENOENT otherwise. */
  predicate Legal(kernel: map<Fd, Mask>, ctl: Ctl, fd: Fd) {
    if ctl.Add? then fd !in kernel else fd in kernel
  }

  function Control(kernel: map<Fd, Mask>, ctl: Ctl, fd: Fd, mask: Mask): map<Fd, Mask> {
    if !Legal(kernel, ctl, fd) then kernel
    else if ctl.Delete? then kernel - {fd}
    else kernel[fd := mask]
  }

  /** The epoll_ctl calls that an operation makes: at most one. */
  function Calls(e: Epoll, op: Op): seq<Ctl> {
    match op
    case Update(c, mask) =>
      if StatusOf(e.status, c) == NEW || StatusOf(e.status, c) == DELETED then [Add]
      else if mask == 0 then [Delete]
      else [Modify]
    case Remove(c) => if StatusOf(e.status, c) == ADDED then [Delete] else []
  }

  function EpollUpdate(e: Epoll, c: Chan, mask: Mask): Epoll {
    var status := StatusOf(e.status, c);
    if status == NEW || status == DELETED then
      Epoll(if status == NEW then e.channels[c.fd := c] else e.channels, e.status[c := ADDED],
        Control(e.kernel, Add, c.fd, mask))
    else if mask == 0 then
      e.(kernel := Control(e.kernel, Delete, c.fd, mask), status := e.status[c := DELETED])
    else
      e.(kernel := Control(e.kernel, Modify, c.fd, mask))
  }

  function EpollRemove(e: Epoll, c: Chan): Epoll {
    Epoll(e.channels - {c.fd}, e.status[c := NEW],
      if StatusOf(e.status, c) == ADDED then Control(e.kernel, Delete, c.fd, 0) else e.kernel)
  }

  function EpollApply(e: Epoll, op: Op): Epoll {
    match op
    case Update(c, mask) => EpollUpdate(e, c, mask)
    case Remove(c) => EpollRemove(e, c)
  }

  ghost predicate EpollOk(e: Epoll, r: Registry) {
    && Listed(e.channels, r.masks)
    && States(e, r)
  }

  /** status_ says whether the kernel has the descriptor, and the kernel has nothing else. */
  ghost predicate States(e: Epoll, r: Registry) {
    && (forall c :: c in r.masks ==>
          if StatusOf(e.status, c) == ADDED then c.fd in e.kernel && e.kernel[c.fd] == r.masks[c]
          else StatusOf(e.status, c) == DELETED && r.masks[c] == 0)
    && (forall fd :: fd in e.kernel ==> fd in e.channels && StatusOf(e.status, e.channels[fd]) == ADDED)
    && (forall c :: c !in r.masks ==> StatusOf(e.status, c) == NEW)
  }

  ghost predicate EpollWatches(e: Epoll, fd: Fd, mask: Mask) {
    mask != 0 && fd in e.kernel && e.kernel[fd] == mask
  }

  /** Every epoll_ctl is one that the kernel accepts. */
  lemma CallsAreLegal(e: Epoll, r: Registry, op: Op)
    requires EpollOk(e, r) && Can(r, op)
    ensures forall ctl :: ctl in Calls(e, op) ==> Legal(e.kernel, ctl, op.c.fd)
  {
  }

  lemma EpollUpdateStates(e: Epoll, r: Registry, c: Chan, mask: Mask)
    requires EpollOk(e, r) && Can(r, Update(c, mask))
    ensures States(EpollUpdate(e, c, mask), Apply(r, Update(c, mask)))
  {
    ListedUpdate(e.channels, r, c, mask);
  }

  /** An update leaves the descriptor in the kernel with the new mask, even an empty one, unless it
      was there before and the mask is empty: then it goes. No other descriptor changes. */
  lemma EpollUpdateSwitches(e: Epoll, r: Registry, c: Chan, mask: Mask)
    requires EpollOk(e, r) && Can(r, Update(c, mask))
    ensures var k, k' := e.kernel, EpollUpdate(e, c, mask).kernel;
      && (c.fd in k' <==> c.fd !in k || mask != 0) && (c.fd in k' ==> k'[c.fd] == mask)
      && forall fd :: fd != c.fd ==> (fd in k' <==> fd in k) && (fd in k' ==> k'[fd] == k[fd])
  {
    if c in r.masks {
      assert c.fd in e.channels && e.channels[c.fd] == c;
    } else {
      assert StatusOf(e.status, c) == NEW;
      assert c.fd in e.channels ==> e.channels[c.fd] in r.masks;
    }
  }

  lemma EpollRemoveStates(e: Epoll, r: Registry, c: Chan)
    requires EpollOk(e, r) && Can(r, Remove(c))
    ensures States(EpollRemove(e, c), Apply(r, Remove(c)))
  {
  }

  lemma StatesSay(e: Epoll, r: Registry, c: Chan)
    requires States(e, r)
    ensures StatusOf(e.status, c) == NEW <==> c !in r.masks
  {
  }

  lemma EpollKeeps(e: Epoll, r: Registry, op: Op)
    requires EpollOk(e, r) && Can(r, op)
    ensures EpollOk(EpollApply(e, op), Apply(r, op))
  {
    hide Listed, States;
    match op
    case Update(c, mask) =>
      EpollUpdateStates(e, r, c, mask);
      ListedUpdate(e.channels, r, c, mask);
      StatesSay(e, r, c);
    case Remove(c) =>
      EpollRemoveStates(e, r, c);
      ListedRemove(e.channels, r.masks, c);
  }

  lemma EpollWatchesWanted(e: Epoll, r: Registry, fd: Fd, mask: Mask)
    requires EpollOk(e, r)
    ensures EpollWatches(e, fd, mask) <==> Wanted(r, fd, mask)
  {
    if EpollWatches(e, fd, mask) {
      assert e.channels[fd] in r.masks;
    }
  }

  // ---------- both, over runs ----------

  /** The same operations done to a poll poller, an epoll poller and the registry. */
  ghost predicate Runs(p: Poll, e: Epoll, r: Registry, ops: seq<Op>, p': Poll, e': Epoll, r': Registry)
    decreases |ops|
  {
    if ops == [] then p' == p && e' == e && r' == r
    else Can(r, ops[0]) && (PollSafe(p, ops[0]) ==>
      Runs(PollApply(p, ops[0]), EpollApply(e, ops[0]), Apply(r, ops[0]), ops[1..], p', e', r'))
  }

  lemma PollKeeps(p: Poll, r: Registry, op: Op)
    requires PollOk(p, r) && Can(r, op)
    ensures PollSafe(p, op) && PollOk(PollApply(p, op), Apply(r, op))
  {
    hide PollOk;
    match op
    case Update(c, mask) => PollUpdateKeeps(p, r, c, mask);
    case Remove(c) => PollRemoveKeeps(p, r, c);
  }

  /** After any updates and removals of distinct descriptors: slots, channels_ and status_ are
      a bijection, the next epoll_ctl is legal, and both pollers watch the same descriptors
      for the same non-empty masks, those of the registered channels. */
  lemma {:induction false} EveryRunAgrees(p: Poll, e: Epoll, r: Registry, ops: seq<Op>, p': Poll, e': Epoll,
        r': Registry)
    requires PollOk(p, r) && EpollOk(e, r) && Runs(p, e, r, ops, p', e', r')
    ensures PollOk(p', r') && EpollOk(e', r')
    ensures forall op, ctl :: Can(r', op) && ctl in Calls(e', op) ==> Legal(e'.kernel, ctl, op.c.fd)
    ensures forall fd, mask :: PollWatches(p', fd, mask) <==> EpollWatches(e', fd, mask)
    decreases |ops|
  {
    hide PollOk, EpollOk, Can, PollSafe, PollWatches, EpollWatches, Wanted, Calls, Legal;
    if ops == [] {
      forall op, ctl | Can(r', op) && ctl in Calls(e', op) ensures Legal(e'.kernel, ctl, op.c.fd) {
        CallsAreLegal(e', r', op);
      }
      forall fd, mask ensures PollWatches(p', fd, mask) <==> EpollWatches(e', fd, mask) {
        PollWatchesWanted(p', r', fd, mask);
        EpollWatchesWanted(e', r', fd, mask);
      }
    } else {
      PollKeeps(p, r, ops[0]);
      EpollKeeps(e, r, ops[0]);
      EveryRunAgrees(PollApply(p, ops[0]), EpollApply(e, ops[0]), Apply(r, ops[0]), ops[1..], p', e', r');
    }
  }

  lemma EmptyOk()
    ensures PollOk(Poll([], map[], map[]), Registry(map[], {}))
    ensures EpollOk(Epoll(map[], map[], map[]), Registry(map[], {}))
  {
  }

  // ---------- a removed channel used again ----------

  /** Registering a channel with PollPoller works exactly when its status_ is negative. */
  lemma PollRegistersIff(p: Poll, r: Registry, c: Chan, mask: Mask)
    requires PollOk(p, r) && PollSafe(p, Update(c, mask))
    requires c !in r.masks && forall d :: d in r.masks ==> d.fd != c.fd
    ensures PollOk(PollUpdate(p, c, mask), r.(masks := r.masks[c := mask])) <==> StatusOf(p.status, c) < 0
  {
    hide Linked, Masked;
    ListedUpdate(p.channels, Registry(r.masks, {}), c, mask);
    if StatusOf(p.status, c) < 0 {
      UpdateLinks(p, c, mask);
      UpdateMasks(p, r, c, mask);
    }
  }

  /** PollPoller::removeChannel leaves status_ as it was, so registering the same channel
      object again goes wrong: it takes over another channel's slot, or none at all.
      EPollPoller resets status_, and registers it properly. */
  lemma RemovedChannelCannotReturn(p: Poll, e: Epoll, r: Registry, c: Chan, mask: Mask)
    requires PollOk(p, r) && EpollOk(e, r) && Can(r, Remove(c))
    ensures PollSafe(p, Remove(c)) && var p' := PollRemove(p, c);
      PollSafe(p', Update(c, mask)) ==> !PollOk(PollUpdate(p', c, mask), Registry(r.masks[c := mask], r.retired + {c}))
    ensures EpollOk(EpollUpdate(EpollRemove(e, c), c, mask), Registry(r.masks[c := mask], r.retired + {c}))
  {
    hide PollOk, EpollOk, PollRemove, PollUpdate, EpollRemove, EpollUpdate, PollSafe;
    PollRemoveKeeps(p, r, c);
    StaleStatus(p, r, c);
    NoOtherHasFd(p, r, c);
    var p' := PollRemove(p, c);
    var r' := Apply(r, Remove(c));
    assert r'.masks[c := mask] == r.masks[c := mask];
    if PollSafe(p', Update(c, mask)) {
      PollRegistersIff(p', r', c, mask);
    }
    EpollKeeps(e, r, Remove(c));
    EpollForgetsRetired(EpollRemove(e, c), r', r'.(retired := {}));
    EpollKeeps(EpollRemove(e, c), r'.(retired := {}), Update(c, mask));
    EpollForgetsRetired(EpollUpdate(EpollRemove(e, c), c, mask), Registry(r.masks[c := mask], {}),
        Registry(r.masks[c := mask], r.retired + {c}));
  }

  lemma StaleStatus(p: Poll, r: Registry, c: Chan)
    requires PollOk(p, r) && Can(r, Remove(c)) && PollSafe(p, Remove(c))
    ensures StatusOf(PollRemove(p, c).status, c) == StatusOf(p.status, c) >= 0
  {
    hide Masked;
    LastSlot(p, c);
  }

  lemma NoOtherHasFd(p: Poll, r: Registry, c: Chan)
    requires PollOk(p, r) && c in r.masks
    ensures forall d :: d in r.masks && d != c ==> d.fd != c.fd
  {
    hide Linked, Masked;
  }

  lemma EpollForgetsRetired(e: Epoll, r: Registry, r': Registry)
    requires EpollOk(e, r) && r'.masks == r.masks
    ensures EpollOk(e, r')
  {
  }
}
