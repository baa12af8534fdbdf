/**
 The two pollers of the source as objects: an array of pollfd with swap-remove, and the
 registration states over epoll. The status_ and revents_ fields of all channels are kept in
 maps. The methods are proved against PollerModel.
 */
module Pollers {
  import opened PollerModel

  // How many slots have events: what ::poll returns.
  ghost function Ready(revents: seq<int>): nat {
    if revents == [] then 0 else (if revents[0] > 0 then 1 else 0) + Ready(revents[1..])
  }

  lemma {:induction false} ReadyFrom(revents: seq<int>, i: nat)
    requires i <= |revents|
    ensures Ready(revents[i..]) == 0 ==> forall j :: i <= j < |revents| ==> revents[j] <= 0
    ensures i < |revents| ==> Ready(revents[i..]) == (if revents[i] > 0 then 1 else 0) + Ready(revents[i + 1..])
    decreases |revents| - i
  {
    if i < |revents| {
      assert revents[i..][1..] == revents[i + 1..];
      ReadyFrom(revents, i + 1);
    }
  }

  class PollPoller {
    var pollfds: seq<Slot>
    var channels: map<Fd, Chan>
    var status: map<Chan, int>
    var revents: map<Chan, int>

    ghost function View(): Poll
      reads this
    {
      Poll(pollfds, channels, status)
    }

    constructor ()
      ensures View() == Poll([], map[], map[]) && PollOk(View(), Registry(map[], {}))
    {
      pollfds, channels, status, revents := [], map[], map[], map[];
      new;
      EmptyOk();
    }

    method UpdateChannel(c: Chan, events: Mask)
      requires PollSafe(View(), Update(c, events))
      modifies this`pollfds, this`channels, this`status
      ensures View() == PollUpdate(old(View()), c, events)
    {
      if StatusOf(status, c) < 0 {
        pollfds := pollfds + [Slot(c.fd, events)];
        var idx := |pollfds| - 1;
        status := status[c := idx];
        channels := channels[c.fd := c];
      } else {
        var idx := StatusOf(status, c);
        pollfds := pollfds[idx := Slot(c.fd, events)];
        if events == 0 {
          var off := -(c.fd as int) - 1;
          pollfds := pollfds[idx := Slot(off, events)];
        }
      }
    }

    method RemoveChannel(c: Chan)
      requires PollSafe(View(), Remove(c))
      modifies this`pollfds, this`channels, this`status
      ensures View() == PollRemove(old(View()), c)
    {
      var idx := StatusOf(status, c);
      channels := channels - {c.fd};
      var last := |pollfds| - 1;
      if idx == last {
        pollfds := pollfds[..last];
      } else {
        var channelAtEnd := pollfds[last].fd;
        pollfds := pollfds[idx := pollfds[last]][last := pollfds[idx]];
        if channelAtEnd < 0 {
          channelAtEnd := -channelAtEnd - 1;
        }
        status := status[channels[channelAtEnd] := idx];
        assert pollfds[..last] == old(pollfds)[idx := old(pollfds)[last]][..last];
        pollfds := pollfds[..last];
      }
    }

    /** `events[i]` is what ::poll stored in slot i. The active channels are those of the slots
        with events, in slot order; the early exit misses none. */
    method FillActiveChannels(events: seq<int>, numEvents: nat) returns (active: seq<Chan>)
      requires Linked(View()) && |events| == |pollfds| && numEvents == Ready(events)
      // the kernel skips negative descriptors
      requires forall i :: 0 <= i < |pollfds| && pollfds[i].fd < 0 ==> events[i] == 0
      modifies this`revents
      ensures AreActive(View(), events, active, |pollfds|)
      ensures Noted(View(), events, active, revents)
    {
      hide Linked, AreActive, Noted;
      active := [];
      NoneActive(View(), events, revents);
      var left := numEvents;
      var i := 0;
      while i < |pollfds| && left > 0
        invariant 0 <= i <= |pollfds| && left == Ready(events[i..])
        invariant AreActive(View(), events, active, i)
        invariant Noted(View(), events, active, revents)
      {
        ReadyFrom(events, i);
        if events[i] > 0 {
          left := left - 1;
          SlotChannel(View(), i);
          var channel := channels[pollfds[i].fd];
          TakeActive(View(), events, active, i, revents);
          revents := revents[channel := events[i]];
          active := active + [channel];
        } else {
          SkipInactive(View(), events, active, i, i + 1);
        }
        i := i + 1;
      }
      ReadyFrom(events, i);
      SkipInactive(View(), events, active, i, |pollfds|);
    }
  }

  ghost predicate HasEvents(p: Poll, events: seq<int>, c: Chan, n: nat) {
    var i := StatusOf(p.status, c);
    0 <= i < n && i < |events| && events[i] > 0
  }

  /** The channels of the slots before n that have events, in slot order. */
  ghost predicate AreActive(p: Poll, events: seq<int>, active: seq<Chan>, n: nat)
    requires |events| == |p.slots|
  {
    && (forall k :: 0 <= k < |active| ==> active[k].fd in p.channels && p.channels[active[k].fd] == active[k])
    && (forall k :: 0 <= k < |active| ==> HasEvents(p, events, active[k], n))
    && (forall j, k :: 0 <= j < k < |active| ==> StatusOf(p.status, active[j]) < StatusOf(p.status, active[k]))
    && (forall fd :: fd in p.channels && HasEvents(p, events, p.channels[fd], n) ==> p.channels[fd] in active)
  }

  /** Their revents_ are those of their slots. */
  ghost predicate Noted(p: Poll, events: seq<int>, active: seq<Chan>, revents: map<Chan, int>) {
    forall k :: 0 <= k < |active| ==>
      active[k] in revents && 0 <= StatusOf(p.status, active[k]) < |events|
        && revents[active[k]] == events[StatusOf(p.status, active[k])]
  }

  lemma NoneActive(p: Poll, events: seq<int>, revents: map<Chan, int>)
    requires |events| == |p.slots|
    ensures AreActive(p, events, [], 0) && Noted(p, events, [], revents)
  {
  }

  lemma SkipInactive(p: Poll, events: seq<int>, active: seq<Chan>, i: nat, n: nat)
    requires |events| == |p.slots| && i <= n <= |events| && AreActive(p, events, active, i)
    requires forall j :: i <= j < n ==> events[j] <= 0
    ensures AreActive(p, events, active, n)
  {
  }

  lemma TakeActive(p: Poll, events: seq<int>, active: seq<Chan>, i: nat, revents: map<Chan, int>)
    requires Linked(p) && |events| == |p.slots| && i < |events| && AreActive(p, events, active, i)
      && Noted(p, events, active, revents)
    requires p.slots[i].fd >= 0 && events[i] > 0
    ensures p.slots[i].fd in p.channels
    ensures var c := p.channels[p.slots[i].fd];
      AreActive(p, events, active + [c], i + 1) && Noted(p, events, active + [c], revents[c := events[i]])
  {
    SlotChannel(p, i);
    hide Linked;
    var c := p.channels[p.slots[i].fd];
    forall k | 0 <= k < |active| ensures active[k] != c {
      assert StatusOf(p.status, active[k]) < i;
    }
  }

  lemma SlotChannel(p: Poll, i: nat)
    requires Linked(p) && i < |p.slots| && p.slots[i].fd >= 0
    ensures p.slots[i].fd in p.channels && StatusOf(p.status, p.channels[p.slots[i].fd]) == i
    ensures p.channels[p.slots[i].fd].fd == p.slots[i].fd
    ensures forall fd :: fd in p.channels && StatusOf(p.status, p.channels[fd]) == i ==> fd == p.slots[i].fd
  {
  }

  class EPollPoller {
    var channels: map<Fd, Chan>
    var status: map<Chan, int>
    // the kernel's table for epollfd_, and the epoll_ctl calls so far that it refused
    var kernel: map<Fd, Mask>
    var refused: nat

    ghost function View(): Epoll
      reads this
    {
      Epoll(channels, status, kernel)
    }

    constructor ()
      ensures View() == Epoll(map[], map[], map[]) && EpollOk(View(), Registry(map[], {})) && refused == 0
    {
      channels, status, kernel, refused := map[], map[], map[], 0;
      new;
      EmptyOk();
    }

    // update: epoll_ctl
    method Update(ctl: Ctl, c: Chan, events: Mask)
      modifies this`kernel, this`refused
      ensures kernel == Control(old(kernel), ctl, c.fd, events)
      ensures refused == if Legal(old(kernel), ctl, c.fd) then old(refused) else old(refused) + 1
    {
      match ctl {
        case Add => if c.fd !in kernel { kernel := kernel[c.fd := events]; } else { refused := refused + 1; }
        case Modify => if c.fd in kernel { kernel := kernel[c.fd := events]; } else { refused := refused + 1; }
        case Delete => if c.fd in kernel { kernel := kernel - {c.fd}; } else { refused := refused + 1; }
      }
    }

    /** No call is refused, whatever the registry allows to be done. */
    method UpdateChannel(c: Chan, events: Mask, ghost r: Registry)
      requires EpollOk(View(), r) && Can(r, Op.Update(c, events))
      modifies this
      ensures View() == EpollUpdate(old(View()), c, events) && EpollOk(View(), Apply(r, Op.Update(c, events)))
      ensures refused == old(refused)
    {
      hide EpollOk, Can;
      CallsAreLegal(View(), r, Op.Update(c, events));
      EpollKeeps(View(), r, Op.Update(c, events));
      ghost var calls := Calls(View(), Op.Update(c, events));
      assert calls != [] && calls[0] in calls;
      var was := StatusOf(status, c);
      if was == NEW || was == DELETED {
        if was == NEW {
          channels := channels[c.fd := c];
        }
        status := status[c := ADDED];
        Update(Add, c, events);
      } else if events == 0 {
        Update(Delete, c, events);
        status := status[c := DELETED];
      } else {
        Update(Modify, c, events);
      }
    }

    method RemoveChannel(c: Chan, ghost r: Registry)
      requires EpollOk(View(), r) && Can(r, Remove(c))
      modifies this
      ensures View() == EpollRemove(old(View()), c) && EpollOk(View(), Apply(r, Remove(c)))
      ensures refused == old(refused)
    {
      hide EpollOk, Can;
      CallsAreLegal(View(), r, Remove(c));
      EpollKeeps(View(), r, Remove(c));
      channels := channels - {c.fd};
      if StatusOf(status, c) == ADDED {
        assert Calls(old(View()), Remove(c)) == [Delete];
        Update(Delete, c, 0);
      }
      status := status[c := NEW];
    }
  }
}
