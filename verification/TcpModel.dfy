/**
 The output side of a TCP connection as a state machine over the bytes it was given, the
 bytes it holds, and the bytes the kernel took.
 */
module TcpModel {
  import opened Bytes

  const EWOULDBLOCK: Errno := 11
  const EPIPE: Errno := 32
  const ECONNRESET: Errno := 104

  datatype State = Connecting | Connected | Disconnecting | Disconnected

  /** What write(2) returned: a count, or -1 with errno. */
  datatype Outcome = Wrote(n: nat) | Fails(errno: Errno)

  /** A user callback handed to queueInLoop. */
  datatype Notice = WriteComplete | HighWater(size: nat)

  /** Which callbacks are set, and highWaterMark_. */
  datatype Hooks = Hooks(complete: bool, highWater: bool, mark: nat)

  /** `writing` is the channel's write interest and `out` the output buffer. `wire` is what the
      kernel took and `accepted` the messages sendInLoop took on. `shut`: the write side was
      shut down. `asked`: shutdownInLoop has run. `queuedShutdowns` and `queuedCloses` are
      the calls of shutdownInLoop and forceCloseInLoop handed to the loop and not run yet. */
  datatype Conn = Conn(
    hooks: Hooks,
    state: State,
    writing: bool,
    out: seq<Byte>,
    wire: seq<Byte>,
    accepted: seq<seq<Byte>>,
    shut: bool,
    asked: bool,
    queuedShutdowns: nat,
    queuedCloses: nat,
    notices: seq<Notice>)

  function Concat(ms: seq<seq<Byte>>): seq<Byte> {
    if ms == [] then [] else Concat(ms[..|ms| - 1]) + ms[|ms| - 1]
  }

  predicate Fatal(o: Outcome) {
    o.Fails? && (o.errno == EPIPE || o.errno == ECONNRESET)
  }

  /** What the kernel may answer: never more than was offered, and EPIPE after shutdown(2). */
  predicate Answers(s: Conn, offered: seq<Byte>, o: Outcome) {
    if s.shut then o == Fails(EPIPE) else o.Wrote? ==> o.n <= |offered|
  }

  function Init(hooks: Hooks): Conn {
    Conn(hooks, Connecting, false, [], [], [], false, false, 0, 0, [])
  }

  // ---------- the operations ----------

  function Notify(s: Conn, wanted: bool, notice: Notice): Conn {
    if wanted then s.(notices := s.notices + [notice]) else s
  }

  // The tail of sendInLoop: what was not written is buffered.
  function Hold(s: Conn, rest: seq<Byte>): Conn {
    if rest == [] then s
    else
      var size := |s.out| + |rest|;
      Notify(s, size >= s.hooks.mark && |s.out| < s.hooks.mark && s.hooks.highWater, HighWater(size))
        .(out := s.out + rest, writing := true)
  }

  function SendInLoop(s: Conn, msg: seq<Byte>, o: Outcome): Conn
    requires Answers(s, msg, o)
  {
    if s.state.Disconnected? then s
    else if s.writing || s.out != [] then Hold(s.(accepted := s.accepted + [msg]), msg)
    else
      match o
      case Wrote(n) =>
        var t := s.(wire := s.wire + msg[..n], accepted := s.accepted + [msg]);
        Hold(Notify(t, n == |msg| && s.hooks.complete, WriteComplete), msg[n..])
      case Fails(_) =>
        if Fatal(o) then s else Hold(s.(accepted := s.accepted + [msg]), msg)
  }

  function ShutdownInLoop(s: Conn): Conn {
    if s.writing then s else s.(shut := true)
  }

  function HandleWrite(s: Conn, o: Outcome): Conn
    requires Answers(s, s.out, o)
  {
    if !s.writing || o.Fails? || o.n == 0 then s
    else
      var t := s.(wire := s.wire + s.out[..o.n], out := s.out[o.n..]);
      if t.out != [] then t
      else
        var u := Notify(t.(writing := false), s.hooks.complete, WriteComplete);
        if u.state.Disconnecting? then ShutdownInLoop(u) else u
  }

  function HandleClose(s: Conn): Conn {
    s.(state := Disconnected, writing := false)
  }

  datatype Event =
    | Established
    | Send(msg: seq<Byte>, o: Outcome)
    | Writeable(o: Outcome)
    | Shutdown
    | RunShutdown
    | ForceClose
    | RunForceClose
    | PeerCloses
    | Destroyed

  predicate Can(s: Conn, ev: Event) {
    match ev
    case Established => s.state.Connecting?
    case Send(msg, o) => Answers(s, msg, o)
    case Writeable(o) => Answers(s, s.out, o)
    case Shutdown => true
    case RunShutdown => s.queuedShutdowns > 0
    case ForceClose => true
    case RunForceClose => s.queuedCloses > 0
    case PeerCloses => !s.state.Connecting?
    case Destroyed => true
  }

  function Next(s: Conn, ev: Event): Conn
    requires Can(s, ev)
  {
    match ev
    case Established => s.(state := Connected)
    case Send(msg, o) => SendInLoop(s, msg, o)
    case Writeable(o) => HandleWrite(s, o)
    case Shutdown =>
      if s.state.Connected? then s.(state := Disconnecting, queuedShutdowns := s.queuedShutdowns + 1) else s
    case RunShutdown => ShutdownInLoop(s).(asked := true, queuedShutdowns := s.queuedShutdowns - 1)
    case ForceClose =>
      if s.state.Connected? || s.state.Disconnecting?
      then s.(state := Disconnecting, queuedCloses := s.queuedCloses + 1) else s
    case RunForceClose =>
      var t := s.(queuedCloses := s.queuedCloses - 1);
      if s.state.Connected? || s.state.Disconnecting? then HandleClose(t) else t
    case PeerCloses => HandleClose(s)
    case Destroyed => if s.state.Connected? then HandleClose(s) else s
  }

  // ---------- the invariant ----------

  /** Nothing accepted is lost, doubled or reordered. */
  predicate Conserved(s: Conn) {
    s.wire + s.out == Concat(s.accepted)
  }

  /** While open, the channel waits to write exactly when there is something to write. */
  predicate Interested(s: Conn) {
    if s.state.Disconnected? then !s.writing else s.writing <==> s.out != []
  }

  /** A connection is on its way down only if something is still to take it there, or it has been
      asked to shut down. */
  predicate NoneForgotten(s: Conn) {
    s.state.Disconnecting? ==> s.queuedShutdowns > 0 || s.asked || s.queuedCloses > 0
  }

  /** An open connection that was asked to shut down has done so as soon as it is drained. */
  predicate HalfClosed(s: Conn) {
    && (s.queuedShutdowns > 0 || s.asked ==> s.state.Disconnecting? || s.state.Disconnected?)
    && (s.shut && !s.state.Disconnected? ==> s.out == [])
    && (s.asked && s.state.Disconnecting? ==> (s.shut <==> s.out == []))
  }

  predicate Inv(s: Conn) {
    Conserved(s) && Interested(s) && HalfClosed(s) && NoneForgotten(s)
  }

  lemma InitInv(hooks: Hooks)
    ensures Inv(Init(hooks))
  {
  }

  lemma ConcatSnoc(ms: seq<seq<Byte>>, m: seq<Byte>)
    ensures Concat(ms + [m]) == Concat(ms) + m
  {
    assert (ms + [m])[..|ms|] == ms;
  }

  lemma SendConserves(s: Conn, msg: seq<Byte>, o: Outcome)
    requires Conserved(s) && Answers(s, msg, o)
    ensures Conserved(SendInLoop(s, msg, o))
  {
    ConcatSnoc(s.accepted, msg);
    if o.Wrote? && o.n <= |msg| {
      assert s.out == [] ==> s.wire + msg[..o.n] + msg[o.n..] == s.wire + s.out + msg;
    }
    assert s.wire + (s.out + msg) == s.wire + s.out + msg;
  }

  lemma WriteConserves(s: Conn, o: Outcome)
    requires Conserved(s) && Answers(s, s.out, o)
    ensures Conserved(HandleWrite(s, o))
  {
    if o.Wrote? && o.n <= |s.out| {
      assert s.wire + s.out[..o.n] + s.out[o.n..] == s.wire + s.out;
    }
  }

  lemma NextKeeps(s: Conn, ev: Event)
    requires Inv(s) && Can(s, ev)
    ensures Inv(Next(s, ev))
  {
    hide Concat;
    match ev
    case Send(msg, o) => SendConserves(s, msg, o);
    case Writeable(o) => WriteConserves(s, o);
    case _ =>
  }

  predicate Runs(s: Conn, evs: seq<Event>, s': Conn)
    decreases |evs|
  {
    if evs == [] then s' == s else Can(s, evs[0]) && Runs(Next(s, evs[0]), evs[1..], s')
  }

  // ---------- what is sent, what is taken ----------

  /** Nothing is waiting to be written. */
  predicate IsIdle(s: Conn) {
    !s.writing && s.out == []
  }

  /** send() drops a message exactly on a closed connection, and when a direct write finds the
      peer gone. */
  predicate Drops(s: Conn, ev: Event) {
    ev.Send? && (s.state.Disconnected? || (IsIdle(s) && Fatal(ev.o)))
  }

  /** The messages that the run sends and does not drop, in order. */
  function Sent(s: Conn, evs: seq<Event>): seq<seq<Byte>>
    decreases |evs|
  {
    if evs == [] || !Can(s, evs[0]) then []
    else (if evs[0].Send? && !Drops(s, evs[0]) then [evs[0].msg] else []) + Sent(Next(s, evs[0]), evs[1..])
  }

  /** How many bytes the kernel says it took: of a message sent while nothing waits, or of the
      buffer while the channel waits to write. */
  function Took(s: Conn, ev: Event): nat {
    match ev
    case Send(_, Wrote(n)) => if !s.state.Disconnected? && IsIdle(s) then n else 0
    case Writeable(Wrote(n)) => if s.writing then n else 0
    case _ => 0
  }

  function TookAll(s: Conn, evs: seq<Event>): nat
    decreases |evs|
  {
    if evs == [] || !Can(s, evs[0]) then 0 else Took(s, evs[0]) + TookAll(Next(s, evs[0]), evs[1..])
  }

  lemma StepAccepts(s: Conn, ev: Event)
    requires Can(s, ev)
    ensures Next(s, ev).accepted == s.accepted + if ev.Send? && !Drops(s, ev) then [ev.msg] else []
    ensures |Next(s, ev).wire| == |s.wire| + Took(s, ev)
  {
  }

  lemma {:induction false} RunAccepts(s: Conn, evs: seq<Event>, s': Conn)
    requires Runs(s, evs, s')
    ensures s'.accepted == s.accepted + Sent(s, evs) && |s'.wire| == |s.wire| + TookAll(s, evs)
    decreases |evs|
  {
    hide Can, Next, Drops, Took;
    if evs != [] {
      StepAccepts(s, evs[0]);
      RunAccepts(Next(s, evs[0]), evs[1..], s');
    }
  }

  lemma {:induction false} RunKeeps(s: Conn, evs: seq<Event>, s': Conn)
    requires Inv(s) && Runs(s, evs, s')
    ensures Inv(s')
    decreases |evs|
  {
    hide Next, Can, Inv;
    if evs != [] {
      NextKeeps(s, evs[0]);
      RunKeeps(Next(s, evs[0]), evs[1..], s');
    }
  }

  /** On a new connection, after any sequence of sends, partial and failed writes, shutdowns and
      closes: the bytes on the wire followed by the output buffer are the messages sent and not
      dropped, in order, and the wire has as many of them as the kernel took; while the
      connection is open write interest is on exactly when the buffer is not empty; and a
      connection shut down while open has everything sent on the wire. */
  lemma EveryRun(hooks: Hooks, evs: seq<Event>, s: Conn)
    requires Runs(Init(hooks), evs, s)
    ensures s.wire + s.out == Concat(Sent(Init(hooks), evs)) && |s.wire| == TookAll(Init(hooks), evs)
    ensures !s.state.Disconnected? ==> (s.writing <==> s.out != [])
    ensures s.shut && !s.state.Disconnected? ==> s.wire == Concat(Sent(Init(hooks), evs))
  {
    hide Runs, Concat;
    InitInv(hooks);
    RunKeeps(Init(hooks), evs, s);
    RunAccepts(Init(hooks), evs, s);
    assert s.accepted == Sent(Init(hooks), evs);
    InvSays(s);
  }

  lemma InvSays(s: Conn)
    requires Inv(s)
    ensures s.wire + s.out == Concat(s.accepted)
    ensures s.shut && !s.state.Disconnected? ==> s.wire == Concat(s.accepted)
  {
    assert s.wire + [] == s.wire;
  }

  // ---------- states ----------

  /** This step closes the connection. */
  predicate Closes(s: Conn, ev: Event) {
    ev.PeerCloses? || (ev.RunForceClose? && !s.state.Connecting?) || (ev.Destroyed? && s.state.Connected?)
  }

  /** The states a connection goes through: which steps lead to which, exactly. */
  lemma StateChangesIff(s: Conn, ev: Event)
    requires Can(s, ev)
    ensures Next(s, ev).state ==
      if s.state.Disconnected? || Closes(s, ev) then Disconnected
      else if s.state.Connected? && (ev.Shutdown? || ev.ForceClose?) then Disconnecting
      else if ev.Established? then Connected
      else s.state
  {
  }

  /** shutdown() and forceClose() hand their second half to the loop exactly when they change or
      confirm that the connection goes down, once each. */
  lemma SecondHalvesAreQueued(s: Conn, ev: Event)
    requires Can(s, ev)
    ensures var t := Next(s, ev);
      && t.queuedShutdowns == s.queuedShutdowns
           + (if ev.Shutdown? && s.state.Connected? then 1 else if ev.RunShutdown? then -1 else 0)
      && t.queuedCloses == s.queuedCloses
           + (if ev.ForceClose? && (s.state.Connected? || s.state.Disconnecting?) then 1
              else if ev.RunForceClose? then -1 else 0)
      && (t.asked <==> s.asked || ev.RunShutdown?)
  {
  }

  // ---------- half-close ----------

  /** The write side is shut down exactly by a shutdownInLoop that finds no write interest, and by
      the write that takes the last of the buffer of a connection on its way down. */
  lemma ShutsIff(s: Conn, ev: Event)
    requires Inv(s) && Can(s, ev)
    ensures Next(s, ev).shut <==>
      || s.shut || (ev.RunShutdown? && !s.writing)
      || (ev.Writeable? && s.state.Disconnecting? && s.out != [] && Took(s, ev) == |s.out|)
  {
    hide Concat;
  }

  /** A step that shuts the write side down leaves accepted data unwritten exactly when
      handleClose came before it and found data in the buffer: shutdownInLoop only looks at
      the write interest, which handleClose has cleared. */
  lemma ShutdownDrainsIff(s: Conn, ev: Event)
    requires Inv(s) && Can(s, ev) && !s.shut && Next(s, ev).shut
    ensures Next(s, ev).wire == Concat(Next(s, ev).accepted) <==> !(s.state.Disconnected? && s.out != [])
  {
    hide Concat;
    var t := Next(s, ev);
    NextKeeps(s, ev);
    assert t.wire + t.out == Concat(t.accepted);
    assert |t.wire + t.out| == |t.wire| + |t.out|;
    if t.out == [] { assert t.wire + t.out == t.wire; }
  }

  lemma ShutdownMayLoseData()
    ensures var s := Init(Hooks(false, false, 0));
      var evs := [Established, Send([1], Fails(EWOULDBLOCK)), Shutdown, PeerCloses, RunShutdown];
      exists s' :: Runs(s, evs, s') && s'.shut && s'.wire != Concat(s'.accepted)
  {
    hide Concat;
    var s := Init(Hooks(false, false, 0));
    var s2 := s.(state := Connected, out := [1], writing := true, accepted := [[1]]);
    var evs := [Established, Send([1], Fails(EWOULDBLOCK)), Shutdown, PeerCloses, RunShutdown];
    var late := [Shutdown, PeerCloses, RunShutdown];
    var s' := LateShutdown(s2);
    assert [PeerCloses, RunShutdown] == late[1..] && evs[1..][1..] == late;
    assert Next(Next(s, evs[0]), evs[1]) == s2;
    assert Runs(Next(s, evs[0]), evs[1..], s');
    assert s'.accepted[..0] == [];
    ConcatSnoc([], [1]);
    assert [] + [[1]] == s'.accepted;
  }

  // The last three steps of the run above.
  function LateShutdown(s: Conn): (s': Conn)
    requires s.state.Connected? && s.queuedShutdowns == 0
    ensures Runs(s, [Shutdown, PeerCloses, RunShutdown], s')
    ensures s'.shut && s'.wire == s.wire && s'.accepted == s.accepted
  {
    var s1 := Next(s, Shutdown);
    var s2 := Next(s1, PeerCloses);
    var s3 := Next(s2, RunShutdown);
    assert [RunShutdown][1..] == [] && [PeerCloses, RunShutdown][1..] == [RunShutdown];
    assert Runs(s2, [RunShutdown], s3);
    assert Runs(s1, [PeerCloses, RunShutdown], s3);
    assert [Shutdown, PeerCloses, RunShutdown][1..] == [PeerCloses, RunShutdown];
    s3
  }

  /** Once shut down with everything written, nothing more is accepted or written. */
  lemma {:induction false} ShutIsFinal(s: Conn, evs: seq<Event>, s': Conn)
    requires s.shut && s.out == [] && !s.writing && Runs(s, evs, s')
    ensures s'.shut && s'.out == [] && s'.wire == s.wire && s'.accepted == s.accepted
    decreases |evs|
  {
    if evs != [] {
      ShutIsFinal(Next(s, evs[0]), evs[1..], s');
    }
  }

  /** One write that takes all there is completes the delivery, and the half-close if it was
      asked for. */
  lemma FullWriteDelivers(s: Conn)
    requires Inv(s) && s.writing
    ensures Can(s, Writeable(Wrote(|s.out|)))
    ensures var t := Next(s, Writeable(Wrote(|s.out|)));
      t.wire == Concat(t.accepted) && !t.writing && (s.state.Disconnecting? ==> t.shut)
  {
    hide Concat;
    WriteConserves(s, Wrote(|s.out|));
    var t := HandleWrite(s, Wrote(|s.out|));
    assert t.wire + [] == t.wire;
  }

  // ---------- callbacks ----------

  predicate Adds(s: Conn, s': Conn, notice: Notice) {
    |s'.notices| == |s.notices| + 1 && s'.notices[..|s.notices|] == s.notices && s'.notices[|s.notices|] == notice
  }

  /** The step leaves everything sent so far on the wire, having added to it; an empty message
      counts as added. */
  predicate Delivers(s: Conn, ev: Event)
    requires Can(s, ev)
  {
    && Next(s, ev).out == []
    && ((ev.Send? && ev.o.Wrote? && !Drops(s, ev)) || (ev.Writeable? && Took(s, ev) > 0))
  }

  /** Each step queues one callback at most, and which one, exactly. */
  lemma NoticesIff(s: Conn, ev: Event)
    requires Inv(s) && Can(s, ev)
    ensures var t := Next(s, ev);
      if s.hooks.complete && Delivers(s, ev) then Adds(s, t, WriteComplete)
      else if s.hooks.highWater && |s.out| < s.hooks.mark <= |t.out| then Adds(s, t, HighWater(|t.out|))
      else t.notices == s.notices
  {
    hide Concat;
  }

  /** The high-water callback is queued exactly by the sends that take the buffer from below
      the mark to the mark or above, with the size reached. */
  lemma HighWaterIffCrosses(s: Conn, msg: seq<Byte>, o: Outcome, size: nat)
    requires Inv(s) && Answers(s, msg, o) && s.hooks.highWater
    ensures Adds(s, SendInLoop(s, msg, o), HighWater(size)) <==>
      |s.out| < s.hooks.mark <= |SendInLoop(s, msg, o).out| == size
  {
    hide Concat;
  }

  /** Write completion is queued exactly when a send or a write leaves everything accepted on
      the wire, having added to it; an empty message counts as sent. */
  lemma CompletesIffAllSent(s: Conn, ev: Event)
    requires Inv(s) && Can(s, ev) && s.hooks.complete
    ensures Adds(s, Next(s, ev), WriteComplete) <==>
      && Next(s, ev).out == []
      && ((ev.Send? && ev.o.Wrote? && |Next(s, ev).accepted| > |s.accepted|)
          || (ev.Writeable? && |Next(s, ev).wire| > |s.wire|))
  {
    hide Concat;
  }
}
