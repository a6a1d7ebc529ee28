/**
 What the life-cycle machine of `Lifecycle` guarantees over every run: no dangling channel,
 the order and the number of the callbacks of a connection, and what the code as written
 does instead of what it was meant to do.
 */
module Lifetime {
  import opened Registration
  import opened Connections
  import opened Lifecycle
  import One = OneConnection

  function Last(ss: seq<State>): State
    requires ss != []
  {
    ss[|ss| - 1]
  }

  lemma ViewHasInv(ss: seq<State>, c: ConnId, written: bool)
    requires Run(ss, written) && c in Last(ss).conns
    ensures |Last(ss).loops| > 0 && Known(Last(ss), c) && One.Inv(ViewOf(Last(ss), c), written)
    ensures Alive(Last(ss), c) <==> One.Held(ViewOf(Last(ss), c))
  {
    RunKeepsInv(ss, written);
    assert ConnInv(Last(ss), c, written);
    AliveIsHeld(Last(ss), c);
  }

  /** A step of a run, as an event for connection `c`. */
  lemma StepIsEvent(ss: seq<State>, step: Step, c: ConnId, written: bool) returns (event: One.Event)
    requires Run(ss, written) && Enabled(Last(ss), step, written) && c in Last(ss).conns
    ensures
      var s, s' := Last(ss), Effect(Last(ss), step, written);
      && |s.loops| > 0 && Known(s, c) && One.Inv(ViewOf(s, c), written)
      && |s'.loops| > 0 && Known(s', c)
      && One.Enabled(ViewOf(s, c), event, written)
      && ViewOf(s', c) == One.Apply(ViewOf(s, c), event, written)
      && (Alive(s', c) <==> One.Held(ViewOf(s', c)))
  {
    ViewHasInv(ss, c, written);
    RunKeepsInv(ss, written);
    InvPlaces(Last(ss), step, written);
    EffectKeepsHomes(Last(ss), step, written);
    StepFollows(Last(ss), step, c, written);
    LoopsKept(Last(ss), step, written);
    AliveIsHeld(Effect(Last(ss), step, written), c);
    event :| One.Enabled(ViewOf(Last(ss), c), event, written)
             && ViewOf(Effect(Last(ss), step, written), c) == One.Apply(ViewOf(Last(ss), c), event, written);
  }

  // -------------------------------------------------------------------- lifetime

  /** The kernel, or the active list of its loop, holds the raw pointer to its channel. */
  ghost predicate ChannelExposed(s: State, c: ConnId)
    requires Known(s, c)
  {
    || s.conns[c].conn.reg.kernel.Present?
    || exists r :: r in s.loops[s.conns[c].loop].active && r.c == c
  }

  lemma ExposedView(ss: seq<State>, c: ConnId, written: bool)
    requires Run(ss, written) && c in Last(ss).conns
    ensures |Last(ss).loops| > 0 && Known(Last(ss), c)
    ensures
      var v := ViewOf(Last(ss), c);
      ChannelExposed(Last(ss), c) <==> v.e.conn.reg.kernel.Present? || v.reports != []
  {
    ViewHasInv(ss, c, written);
    ReportsPresent(Last(ss).loops[Last(ss).conns[c].loop].active, c);
  }

  /**
   No dangling channel, as intended.  In every interleaving, for every connection whose
   channel the kernel or an undispatched active list still points to, a shared pointer
   exists, whatever pointers user code keeps and whenever it drops them.
   */
  lemma NoDanglingChannel(ss: seq<State>, c: ConnId)
    requires Run(ss, false) && c in Last(ss).conns
    ensures Known(Last(ss), c)
    ensures ChannelExposed(Last(ss), c) ==> Alive(Last(ss), c)
  {
    ViewHasInv(ss, c, false);
    ExposedView(ss, c, false);
    if ChannelExposed(Last(ss), c) {
      One.ExposedIsHeld(ViewOf(Last(ss), c));
    }
  }

  /**
   As written a channel can dangle.  It is then in an active list only, was put back into
   the interest set by connectDestroyed, the server's destructor has begun, and the last
   pointer was dropped by another thread: that of the destructor, or one of user code.
   */
  lemma DanglingAsWritten(ss: seq<State>, c: ConnId)
    requires Run(ss, true) && c in Last(ss).conns
    requires Known(Last(ss), c) && ChannelExposed(Last(ss), c) && !Alive(Last(ss), c)
    ensures
      var s := Last(ss);
      var e := s.conns[c];
      && e.conn.reg.kernel.Absent? && e.destroyed > 0
      && !s.server.Serving? && (e.loop != 0 || e.shared)
  {
    ViewHasInv(ss, c, true);
    ExposedView(ss, c, true);
    One.FreedIsForgotten(ViewOf(Last(ss), c), true);
    One.DanglingView(ViewOf(Last(ss), c));
  }

  /** A run of the code as written, on n loops, that ends with a dangling channel. */
  ghost predicate DanglingRun(ss: seq<State>, c: ConnId, n: nat, sharing: bool) {
    && Run(ss, true) && |Last(ss).loops| == n && Known(Last(ss), c)
    && ChannelExposed(Last(ss), c) && !Alive(Last(ss), c)
    && (Last(ss).conns[c].shared ==> sharing)
  }

  /**
   For every number n of loops, the server's own included: such a run exists if and only if
   there is a second loop, or a first one and user code that keeps a pointer.
   */
  lemma DanglingReachableExactly(n: nat, sharing: bool)
    ensures (exists ss, c :: DanglingRun(ss, c, n, sharing)) <==> n > 1 || (sharing && n > 0)
  {
    if n > 1 {
      var ss := DropWhileReported(seq(n - 2, i => FIRST));
      assert DanglingRun(ss, 0, n, sharing);
    } else if sharing && n > 0 {
      var ss := ReleaseWhileReported(seq(n - 1, i => FIRST));
      assert DanglingRun(ss, 0, n, sharing);
    } else {
      forall ss, c | DanglingRun(ss, c, n, sharing) ensures false {
        DanglingAsWritten(ss, c);
      }
    }
  }

  /**
   What is left to the close of the descriptor.  In the step that drops the last pointer,
   the channel is still registered when the connection is freed if and only if remove() is
   the written one, handleClose had not run exactly twice before connectDestroyed, and has
   run an even number of times since.
   */
  lemma FreedRegisteredExactly(ss: seq<State>, step: Step, c: ConnId, written: bool)
    requires Run(ss, written) && Enabled(Last(ss), step, written) && c in Last(ss).conns
    requires Alive(Last(ss), c) && !Alive(Effect(Last(ss), step, written), c)
    ensures
      var s' := Effect(Last(ss), step, written);
      c in s'.conns
      && (s'.conns[c].conn.reg.kernel.Present? <==>
          var e := s'.conns[c];
          written && e.closes - e.late != 2 && e.late % 2 == 0)
  {
    var event := StepIsEvent(ss, step, c, written);
    ViewHasInv(ss, c, written);
    One.FreeingEvent(ViewOf(Last(ss), c), event, written);
  }

  /**
   A connection is freed only after connectDestroyed has run, and is then in no interest
   set; the hash map of its poller keeps the dead pointer exactly with the written remove().
   */
  lemma FreedIsForgottenExactly(ss: seq<State>, c: ConnId, written: bool)
    requires Run(ss, written) && c in Last(ss).conns && !Alive(Last(ss), c)
    ensures
      var e := Last(ss).conns[c];
      && e.established == 1 && e.destroyed > 0
      && e.conn.reg.kernel.Absent? && (e.conn.reg.hashed <==> written)
  {
    ViewHasInv(ss, c, written);
    One.FreedIsForgotten(ViewOf(Last(ss), c), written);
  }

  // ---------------------------------------------------------- order of the calls

  /**
   connectEstablished runs at most once; connectDestroyed runs only in a state where it has
   run, also when the server's destructor posts it from another thread; and until it has
   run the connection is untouched and its call is on its way.
   */
  lemma EstablishedOnceThenDestroyed(ss: seq<State>, step: Step, c: ConnId, written: bool)
    requires Run(ss, written) && Enabled(Last(ss), step, written) && c in Last(ss).conns
    ensures
      var s, s' := Last(ss), Apply(Last(ss), step, written);
      && c in s'.conns
      && s.conns[c].established <= s'.conns[c].established <= 1
      && (s'.conns[c].destroyed > s.conns[c].destroyed ==> s.conns[c].established == 1)
      && Known(s, c)
      && (s.conns[c].established == 0 ==>
            s.conns[c].conn == CREATED
            && (s.loops[0].frame == Creating(c) || Establish(c) in s.loops[s.conns[c].loop].jobs))
  {
    var s := Last(ss);
    var event := StepIsEvent(ss, step, c, written);
    One.EventOrder(ViewOf(s, c), event, written);
    CallsPlaced(s.loops[s.conns[c].loop].jobs, c);
  }

  /** The calls of a queue, by the jobs that stand for them. */
  lemma {:induction false} CallsPlaced(jobs: seq<Job>, c: ConnId)
    ensures One.Up in CallsOf(jobs, c) <==> Establish(c) in jobs
    ensures One.Down in CallsOf(jobs, c) <==> Destroy(c) in jobs
  {
    if jobs != [] {
      CallsPlaced(jobs[1..], c);
      assert jobs == [jobs[0]] + jobs[1..];
    }
  }

  lemma {:induction false} DestroysCounted(jobs: seq<Job>, c: ConnId)
    ensures multiset(CallsOf(jobs, c))[One.Down] == multiset(jobs)[Destroy(c)]
  {
    if jobs != [] {
      DestroysCounted(jobs[1..], c);
      assert jobs == [jobs[0]] + jobs[1..];
      assert multiset(CallOf(jobs[0], c))[One.Down] == if jobs[0] == Destroy(c) then 1 else 0;
    }
  }

  /** It has left the map exactly if connectDestroyed is queued, being queued, or has run. */
  lemma DestroyIsOnItsWay(ss: seq<State>, c: ConnId, written: bool)
    requires Run(ss, written) && c in Last(ss).conns
    ensures
      var s := Last(ss);
      && Known(s, c)
      && (c !in s.mapped <==>
            || Destroy(c) in s.loops[s.conns[c].loop].jobs
            || s.loops[0].frame == Removing(c) || s.conns[c].destroyed > 0)
  {
    ViewHasInv(ss, c, written);
    CallsPlaced(Last(ss).loops[Last(ss).conns[c].loop].jobs, c);
  }

  /** When ~TcpServer has returned, no connection is left for which nobody called connectDestroyed. */
  lemma DestructorLeavesNone(ss: seq<State>, c: ConnId, written: bool)
    requires Run(ss, written) && c in Last(ss).conns && Last(ss).server.Gone?
    ensures
      var s := Last(ss);
      && Known(s, c)
      && (Destroy(c) in s.loops[s.conns[c].loop].jobs || s.conns[c].destroyed > 0)
  {
    ViewHasInv(ss, c, written);
    DestroyIsOnItsWay(ss, c, written);
  }

  /** After connectDestroyed the connection accepts nothing more: not connected, now and for good. */
  lemma DestroyedIsNeverConnected(ss: seq<State>, c: ConnId, tid: nat, written: bool)
    requires Run(ss, written) && c in Last(ss).conns && Last(ss).conns[c].destroyed > 0
    ensures
      var state := Last(ss).conns[c].conn.state;
      state == Disconnected || state == Disconnecting
    ensures tid in Last(ss).outside && Last(ss).outside[tid] == c ==> !Enabled(Last(ss), ShutTest(tid), written)
  {
    ViewHasInv(ss, c, written);
  }

  /**
   The runs of connectDestroyed, and the closures and frames on their way to one; as written
   the way through removeConnection has no end.
   */
  function Destructions(s: State, c: ConnId): nat
    requires Known(s, c)
  {
    var home, main := s.loops[s.conns[c].loop], s.loops[0];
    s.conns[c].destroyed + multiset(home.jobs)[Destroy(c)] + multiset(main.jobs)[Remove(c)]
    + (if main.frame == Removing(c) then 1 else 0)
    + (if home.frame.Closing? && home.frame.c == c then 1 else 0)
    + (if main.frame == Stuck(c) then 1 else 0)
  }

  /**
   Every handleClose leads to one connectDestroyed: while the server serves their numbers
   agree, those on their way included; the server's destructor adds at most one, for a
   connection still in its map, and none is invented.
   */
  lemma DestroyedOncePerClose(ss: seq<State>, c: ConnId, written: bool)
    requires Run(ss, written) && c in Last(ss).conns
    ensures
      var s := Last(ss);
      && Known(s, c)
      && (s.server.Serving? ==> Destructions(s, c) == s.conns[c].closes)
      && Destructions(s, c) <= s.conns[c].closes + (if c in s.mapped then 0 else 1)
  {
    ViewHasInv(ss, c, written);
    ViewDestructions(Last(ss), c);
    DownsCounted(ViewOf(Last(ss), c));
  }

  lemma ViewDestructions(s: State, c: ConnId)
    requires |s.loops| > 0 && Known(s, c)
    ensures
      var v := ViewOf(s, c);
      Destructions(s, c) == One.Destructions(v.(calls := [])) + multiset(v.calls)[One.Down]
  {
    DestroysCounted(s.loops[s.conns[c].loop].jobs, c);
  }

  lemma DownsCounted(v: One.View)
    requires One.OrderInv(v)
    ensures v.e.established == 1 ==> multiset(v.calls)[One.Down] == |v.calls|
    ensures v.e.established == 0 ==> multiset(v.calls)[One.Down] == if v.mapped then 0 else 1
  {
    if v.e.established == 1 {
      AllCounted(v.calls);
    }
  }

  lemma {:induction false} AllCounted(calls: seq<One.Call>)
    requires One.AllDown(calls)
    ensures multiset(calls)[One.Down] == |calls|
  {
    if calls != [] {
      AllCounted(calls[1..]);
      assert calls == [calls[0]] + calls[1..];
    }
  }

  /** handleClose runs at most three times before connectDestroyed, and twice only after a bare hang-up. */
  lemma ClosesBounded(ss: seq<State>, c: ConnId, written: bool)
    requires Run(ss, written) && c in Last(ss).conns && Last(ss).conns[c].destroyed == 0
    ensures Last(ss).conns[c].closes <= 3
    ensures !Last(ss).conns[c].bare ==> Last(ss).conns[c].closes <= 1
  {
    ViewHasInv(ss, c, written);
  }

  // ---------------------------------------------------------- order of the states

  /**
   State order.  A step lowers the rank of a connection's state exactly when it is the
   second half of shutdown() and the connection was disconnected since the test.
   */
  lemma RankDropsExactly(ss: seq<State>, step: Step, c: ConnId, written: bool)
    requires Run(ss, written) && Enabled(Last(ss), step, written) && c in Last(ss).conns
    ensures
      var s, s' := Last(ss), Apply(Last(ss), step, written);
      c in s'.conns &&
      (Rank(s'.conns[c].conn.state) < Rank(s.conns[c].conn.state) <==>
       step.ShutSet? && s.outside[step.tid] == c && s.conns[c].conn.state.Disconnected?)
  {
    var event := StepIsEvent(ss, step, c, written);
    One.EventOrder(ViewOf(Last(ss), c), event, written);
    RankStep(Last(ss), step, c, written);
  }

  lemma RankStep(s: State, step: Step, c: ConnId, written: bool)
    requires Enabled(s, step, written) && c in s.conns && c in Effect(s, step, written).conns
    requires Effect(s, step, written).conns[c].established > s.conns[c].established
             ==> s.conns[c].conn == CREATED
    ensures
      var s' := Effect(s, step, written);
      Rank(s'.conns[c].conn.state) < Rank(s.conns[c].conn.state) <==>
      step.ShutSet? && s.outside[step.tid] == c && s.conns[c].conn.state.Disconnected?
  {
  }

  // ------------------------------------------------------------------ sample runs

  lemma CloseFreedIdle(s: State)
    requires forall c :: c in s.conns ==> Alive(s, c)
    ensures CloseFreed(s) == s
  {
  }

  /** One more step of a run, after which the server's map still holds everything. */
  lemma ExtendMapped(ss: seq<State>, step: Step, written: bool) returns (ss': seq<State>)
    requires Run(ss, written) && Enabled(Last(ss), step, written)
    requires
      var s' := Effect(Last(ss), step, written);
      forall c :: c in s'.conns ==> c in s'.mapped
    ensures Run(ss', written) && ss' == ss + [Effect(Last(ss), step, written)]
  {
    CloseFreedIdle(Effect(Last(ss), step, written));
    ss' := Extend(ss, step, written);
  }

  const DISPATCHING: Loop := FIRST.(phase := One.Dispatching)
  const FUNCTORS: Loop := FIRST.(phase := One.Functors)
  const ESTABLISHED: One.Entry := One.Entry(1, ConnectEstablished(CREATED), 1, 0, 0, 0, false, false)

  /** The loops of these runs: two that act, and any others. */
  function Two(main: Loop, io: Loop, idle: seq<Loop>): seq<Loop> {
    [main, io] + idle
  }

  ghost predicate AllFirst(idle: seq<Loop>) {
    forall l :: 0 <= l < |idle| ==> idle[l] == FIRST
  }

  /** While the server serves and nobody else keeps a pointer. */
  function Served(loops: seq<Loop>, e: One.Entry): State {
    State(loops, map[0 := e], {0}, map[], {}, One.Serving)
  }

  /** A run in which connection 0 has been accepted and given to loop 1. */
  lemma AcceptOne(idle: seq<Loop>, written: bool) returns (ss: seq<State>)
    requires AllFirst(idle)
    ensures Run(ss, written)
    ensures
      Last(ss) == Served(Two(DISPATCHING, FIRST.(jobs := [Establish(0)]), idle),
                         One.Entry(1, CREATED, 0, 0, 0, 0, false, false))
  {
    ss := [State(Two(FIRST, FIRST, idle), map[], {}, map[], {}, One.Serving)];
    ss := ExtendMapped(ss, Poll(0, []), written);
    ss := ExtendMapped(ss, Accept(0, 1), written);
    ss := ExtendMapped(ss, PostEstablish, written);
    assert [] + [Establish(0)] == [Establish(0)];
    assert Last(ss).loops == Two(DISPATCHING, FIRST.(jobs := [Establish(0)]), idle);
  }

  /** ... loop 1 has run its connectEstablished ... */
  lemma EstablishOne(idle: seq<Loop>, written: bool) returns (ss: seq<State>)
    requires AllFirst(idle)
    ensures Run(ss, written)
    ensures Last(ss) == Served(Two(DISPATCHING, FUNCTORS.(held := {0}), idle), ESTABLISHED)
  {
    ss := AcceptOne(idle, written);
    ss := ExtendMapped(ss, Poll(1, []), written);
    ss := ExtendMapped(ss, EndDispatch(1), written);
    ss := ExtendMapped(ss, RunJob(1), written);
    var loops := Last(ss).loops;
    assert loops[1].jobs == [] && loops[1].held == {0};
    assert loops == Two(DISPATCHING, FUNCTORS.(held := {0}), idle);
  }

  /** ... and ended its batch. */
  lemma ConnectOne(idle: seq<Loop>, written: bool) returns (ss: seq<State>)
    requires AllFirst(idle)
    ensures Run(ss, written)
    ensures Last(ss) == Served(Two(DISPATCHING, FIRST, idle), ESTABLISHED)
  {
    ss := EstablishOne(idle, written);
    ss := ExtendMapped(ss, EndFunctors(1), written);
    assert Last(ss).loops == Two(DISPATCHING, FIRST, idle);
  }

  lemma CallbacksOfHangUp()
    ensures Callbacks(EPOLLHUP) == [OnClose]
    ensures Callbacks(EPOLLHUP | EPOLLPRI) == [OnClose, OnRead]
    ensures Reportable(EPOLLHUP, READ_EVENT) && Reportable(EPOLLHUP | EPOLLPRI, READ_EVENT)
  {
  }

  /** ... has been reported `revents` and turned to it. */
  lemma HandleOne(revents: Mask, written: bool) returns (ss: seq<State>)
    requires Reportable(revents, READ_EVENT)
    ensures Run(ss, written)
    ensures
      Last(ss) == Served(Two(DISPATCHING, DISPATCHING.(frame := Handling(0, Callbacks(revents))), []),
                         ESTABLISHED.(bare := One.BareHangUp(revents, READ_EVENT)))
  {
    ss := ConnectOne([], written);
    assert ESTABLISHED.conn.reg == Reg(Added, READ_EVENT, true, Present(READ_EVENT));
    ss := ExtendMapped(ss, Poll(1, [Ready(0, revents)]), written);
    ss := ExtendMapped(ss, Handle(1), written);
    assert Last(ss).loops[1].active == [];
    assert Last(ss).loops == Two(DISPATCHING, DISPATCHING.(frame := Handling(0, Callbacks(revents))), []);
  }

  /** ... while a thread of user code is between the two halves of shutdown(). */
  lemma ShutOne(written: bool) returns (ss: seq<State>)
    ensures Run(ss, written)
    ensures
      Last(ss) == Served(Two(DISPATCHING, DISPATCHING.(frame := Handling(0, [OnClose])), []),
                         ESTABLISHED.(bare := true, shared := true)).(outside := map[7 := 0], shutting := {7})
  {
    CallbacksOfHangUp();
    ss := HandleOne(EPOLLHUP, written);
    ss := ExtendMapped(ss, Share(7, 0), written);
    ss := ExtendMapped(ss, ShutTest(7), written);
  }

  /** The race is real: a close between the two halves of shutdown() makes the state go back. */
  lemma RankDropIsReachable(written: bool) returns (ss: seq<State>)
    ensures Run(ss, written) && |ss| >= 2
    ensures
      0 in ss[|ss| - 2].conns && 0 in Last(ss).conns
      && ss[|ss| - 2].conns[0].conn.state == Disconnected
      && Last(ss).conns[0].conn.state == Disconnecting
  {
    ss := ShutOne(written);
    ss := ExtendMapped(ss, RunCallback(1, false), written);
    ss := ExtendMapped(ss, ShutSet(7), written);
  }

  /** handleClose, called by a close callback, with a read callback still to come. */
  lemma CloseOne(written: bool) returns (ss: seq<State>)
    ensures Run(ss, written)
    ensures
      var s := Last(ss);
      && |s.loops| == 2 && s.loops[1].frame == Handling(0, [OnRead]) && s.mapped == {0}
      && s.conns == map[0 := One.Close(ESTABLISHED.(bare := true))]
  {
    CallbacksOfHangUp();
    ss := HandleOne(EPOLLHUP | EPOLLPRI, written);
    ss := ExtendMapped(ss, RunCallback(1, true), written);
    assert [OnClose, OnRead][1..] == [OnRead];
    ss := ExtendMapped(ss, ClosePost(1), written);
  }

  /**
   handleClose can run twice in one dispatch: a hang-up reported with priority data but
   without input, which the mask of a connection allows, and a read that finds the end.
   */
  lemma DoubleCloseIsReachable(written: bool) returns (ss: seq<State>)
    ensures Run(ss, written) && 0 in Last(ss).conns
    ensures
      var e := Last(ss).conns[0];
      && e.closes == 2 && e.destroyed == 0 && e.bare
      && e.conn.reg.kernel == Present(NONE_EVENT)
  {
    ss := CloseOne(written);
    ss := ExtendMapped(ss, RunCallback(1, true), written);
  }

  // --------------------------------------------------------- the code as written

  /** The written removeConnection never erases: while the server serves, its map keeps all. */
  lemma WrittenNeverErases(ss: seq<State>, c: ConnId)
    requires Run(ss, true) && c in Last(ss).conns && Last(ss).server.Serving?
    ensures c in Last(ss).mapped && Alive(Last(ss), c)
  {
    ViewHasInv(ss, c, true);
  }

  /**
   What the written connectDestroyed leaves.  It runs once at most, and takes the channel
   out of the interest set if and only if handleClose has run exactly twice before it; so
   never, if no hang-up was dispatched without the input that the mask asks for.
   */
  lemma WrittenDestroyInRun(ss: seq<State>, step: Step, c: ConnId)
    requires Run(ss, true) && Enabled(Last(ss), step, true) && c in Last(ss).conns
    requires c in Effect(Last(ss), step, true).conns
    requires Effect(Last(ss), step, true).conns[c].destroyed > Last(ss).conns[c].destroyed
    ensures
      var e, e' := Last(ss).conns[c], Effect(Last(ss), step, true).conns[c];
      && e.destroyed == 0 && e'.destroyed == 1
      && (e'.conn.reg.kernel.Absent? <==> e.closes == 2)
      && (!e.bare ==> e'.conn.reg.kernel.Present?)
  {
    var event := StepIsEvent(ss, step, c, true);
    One.EventOrder(ViewOf(Last(ss), c), event, true);
    One.WrittenDestroyEvent(ViewOf(Last(ss), c), event);
  }

  /** One more step, after which loop l still holds everything. */
  lemma ExtendHeld(ss: seq<State>, step: Step, l: nat) returns (ss': seq<State>)
    requires Run(ss, true) && Enabled(Last(ss), step, true)
    requires
      var s' := Effect(Last(ss), step, true);
      l < |s'.loops| && forall c :: c in s'.conns ==> Holds(s'.loops[l], c)
    ensures Run(ss', true) && ss' == ss + [Effect(Last(ss), step, true)]
  {
    CloseFreedIdle(Effect(Last(ss), step, true));
    ss' := Extend(ss, step, true);
  }

  /** After ~TcpServer has begun, and has taken connection 0 from the map. */
  function Unmapped(loops: seq<Loop>, e: One.Entry, server: One.Server): State {
    State(loops, map[0 := e], {}, map[], {}, server)
  }

  /** A run in which the server's destructor has posted connectDestroyed, its pointer still there. */
  lemma DropBegins(idle: seq<Loop>) returns (ss: seq<State>)
    requires AllFirst(idle)
    ensures Run(ss, true)
    ensures
      Last(ss) == Unmapped(Two(FUNCTORS.(frame := Dropping(0)), FIRST.(jobs := [Destroy(0)]), idle),
                           ESTABLISHED, One.Dying)
  {
    ss := ConnectOne(idle, true);
    ss := ExtendMapped(ss, EndDispatch(0), true);
    ss := ExtendMapped(ss, BeginDestruct, true);
    ss := ExtendHeld(ss, DropOne(0), 0);
    assert [] + [Destroy(0)] == [Destroy(0)];
    assert Last(ss).loops == Two(FUNCTORS.(frame := Dropping(0)), FIRST.(jobs := [Destroy(0)]), idle);
  }

  /** ... and loop 1 is about to run it ... */
  lemma DestroyIsDue(idle: seq<Loop>) returns (ss: seq<State>)
    requires AllFirst(idle)
    ensures Run(ss, true)
    ensures
      Last(ss) == Unmapped(Two(FUNCTORS.(frame := Dropping(0)), FUNCTORS.(jobs := [Destroy(0)], due := 1), idle),
                           ESTABLISHED, One.Dying)
  {
    ss := DropBegins(idle);
    ss := ExtendHeld(ss, Poll(1, []), 0);
    ss := ExtendHeld(ss, EndDispatch(1), 0);
    assert Last(ss).loops == Two(FUNCTORS.(frame := Dropping(0)), FUNCTORS.(jobs := [Destroy(0)], due := 1), idle);
  }

  /** ... and has run it, its batch not yet over ... */
  lemma DestroyOne(idle: seq<Loop>) returns (ss: seq<State>)
    requires AllFirst(idle)
    ensures Run(ss, true)
    ensures
      Last(ss) == Unmapped(Two(FUNCTORS.(frame := Dropping(0)), FUNCTORS.(held := {0}), idle),
                           One.Destroy(ESTABLISHED, true), One.Dying)
  {
    ss := DestroyIsDue(idle);
    ss := ExtendHeld(ss, RunJob(1), 0);
    var loops := Last(ss).loops;
    assert loops[1].jobs == [] && loops[1].held == {0};
    assert loops == Two(FUNCTORS.(frame := Dropping(0)), FUNCTORS.(held := {0}), idle);
  }

  lemma DestroyedIsRegistered(e: One.Entry)
    requires e.conn == ConnectEstablished(CREATED)
    ensures One.Destroy(e, true).conn.reg == Reg(Added, NONE_EVENT, true, Present(NONE_EVENT))
  {
  }

  lemma NobodyHolds(s: State, main: Loop, io: Loop, idle: seq<Loop>)
    requires s.loops == Two(main, io, idle) && AllFirst(idle) && s.mapped == {} && s.outside == map[]
    requires !Holds(main, 0) && !Holds(io, 0)
    ensures !Alive(s, 0) && !Alive(CloseFreed(s), 0)
  {
    forall l | 0 <= l < |s.loops| ensures !Holds(s.loops[l], 0) {
      if l >= 2 { assert s.loops[l] == FIRST; }
    }
    assert OutsideOf(s, 0) == {} == OutsideOf(CloseFreed(s), 0);
  }

  /** ... and the destructor's pointer is gone. */
  lemma DestroyedAndDropped() returns (ss: seq<State>)
    ensures Run(ss, true)
    ensures
      Last(ss) == Unmapped(Two(FUNCTORS.(frame := Destructing), FUNCTORS.(held := {0}), []),
                           One.Destroy(ESTABLISHED, true), One.Dying)
  {
    ss := DestroyOne([]);
    ss := ExtendHeld(ss, EndDrop, 1);
    assert Last(ss).loops == Two(FUNCTORS.(frame := Destructing), FUNCTORS.(held := {0}), []);
  }

  /**
   As written, destroying the server puts the channel of a live connection back into the
   interest set: it is there again after connectDestroyed, while the closure that ran it
   still holds the connection.  When that is freed the close of its descriptor takes the
   channel out of the interest set, and the poller's hash map keeps the dead pointer.
   */
  lemma WrittenLeavesDeadPointer() returns (ss: seq<State>)
    ensures Run(ss, true) && |ss| >= 2 && 0 in ss[|ss| - 2].conns && 0 in Last(ss).conns
    ensures
      var s := ss[|ss| - 2];
      Alive(s, 0) && s.conns[0].destroyed == 1 && s.conns[0].conn.reg.kernel == Present(NONE_EVENT)
    ensures
      var s := Last(ss);
      !Alive(s, 0) && s.conns[0].conn.reg.kernel.Absent? && s.conns[0].conn.reg.hashed
  {
    ss := DestroyedAndDropped();
    DestroyedIsRegistered(ESTABLISHED);
    assert Holds(Last(ss).loops[1], 0);
    NobodyHolds(Effect(Last(ss), EndFunctors(1), true), FUNCTORS.(frame := Destructing), FIRST, []);
    ss := Extend(ss, EndFunctors(1), true);
  }

  /** Or, its pointer still there, loop 1 has ended its batch and is told of a hang-up. */
  lemma ReportDestroyed(idle: seq<Loop>) returns (ss: seq<State>)
    requires AllFirst(idle)
    ensures Run(ss, true)
    ensures
      Last(ss) == Unmapped(Two(FUNCTORS.(frame := Dropping(0)), DISPATCHING.(active := [Ready(0, EPOLLHUP)]), idle),
                           One.Destroy(ESTABLISHED, true), One.Dying)
  {
    ss := DestroyOne(idle);
    DestroyedIsRegistered(ESTABLISHED);
    ss := ExtendHeld(ss, EndFunctors(1), 0);
    ss := ExtendHeld(ss, Poll(1, [Ready(0, EPOLLHUP)]), 0);
    assert Last(ss).loops
           == Two(FUNCTORS.(frame := Dropping(0)), DISPATCHING.(active := [Ready(0, EPOLLHUP)]), idle);
  }

  /** As written, with a pool of loops: the destructor drops the last pointer to a reported channel. */
  lemma DropWhileReported(idle: seq<Loop>) returns (ss: seq<State>)
    requires AllFirst(idle)
    ensures DanglingRun(ss, 0, |idle| + 2, false)
  {
    ss := ReportDestroyed(idle);
    var io := DISPATCHING.(active := [Ready(0, EPOLLHUP)]);
    var s' := Effect(Last(ss), EndDrop, true);
    assert s'.loops == Two(FUNCTORS.(frame := Destructing), io, idle);
    NobodyHolds(s', FUNCTORS.(frame := Destructing), io, idle);
    ss := Extend(ss, EndDrop, true);
    assert Ready(0, EPOLLHUP) in Last(ss).loops[1].active;
  }

  // ---------------------------------------------------- ... and with one loop only

  /** Connection 0 on loop 0, thread 7 keeping a pointer. */
  function OnMain(main: Loop, idle: seq<Loop>, e: One.Entry, mapped: set<ConnId>, server: One.Server): State {
    State([main] + idle, map[0 := e], mapped, map[7 := 0], {}, server)
  }

  const SHARED: One.Entry := One.Entry(0, ConnectEstablished(CREATED), 1, 0, 0, 0, false, true)

  /** One more step of a run, after which user code still keeps pointers to everything. */
  lemma ExtendShared(ss: seq<State>, step: Step) returns (ss': seq<State>)
    requires Run(ss, true) && Enabled(Last(ss), step, true)
    requires
      var s' := Effect(Last(ss), step, true);
      s'.conns.Keys == {0} && s'.outside == map[7 := 0]
    ensures Run(ss', true) && ss' == ss + [Effect(Last(ss), step, true)]
  {
    assert 7 in OutsideOf(Effect(Last(ss), step, true), 0);
    CloseFreedIdle(Effect(Last(ss), step, true));
    ss' := Extend(ss, step, true);
  }

  lemma EstablishHere(idle: seq<Loop>) returns (ss: seq<State>)
    requires AllFirst(idle)
    ensures Run(ss, true)
    ensures Last(ss) == Served([DISPATCHING] + idle, SHARED.(shared := false))
  {
    ss := [State([FIRST] + idle, map[], {}, map[], {}, One.Serving)];
    ss := ExtendMapped(ss, Poll(0, []), true);
    ss := ExtendMapped(ss, Accept(0, 0), true);
    ss := ExtendMapped(ss, PostEstablish, true);
    assert Last(ss).loops == [DISPATCHING] + idle;
  }

  lemma ShareOne(idle: seq<Loop>) returns (ss: seq<State>)
    requires AllFirst(idle)
    ensures Run(ss, true)
    ensures Last(ss) == OnMain(DISPATCHING, idle, SHARED, {0}, One.Serving)
  {
    ss := EstablishHere(idle);
    ss := ExtendMapped(ss, Share(7, 0), true);
  }

  lemma DestroyShared(idle: seq<Loop>) returns (ss: seq<State>)
    requires AllFirst(idle)
    ensures Run(ss, true)
    ensures Last(ss) == OnMain(FUNCTORS, idle, One.Destroy(SHARED, true), {}, One.Gone)
  {
    ss := ShareOne(idle);
    ss := ExtendShared(ss, EndDispatch(0));
    ss := ExtendShared(ss, BeginDestruct);
    ss := ExtendShared(ss, DropOne(0));
    ss := ExtendShared(ss, EndDrop);
    ss := ExtendShared(ss, EndDestruct);
    assert Last(ss).loops == [FUNCTORS] + idle;
  }

  lemma ReportShared(idle: seq<Loop>) returns (ss: seq<State>)
    requires AllFirst(idle)
    ensures Run(ss, true)
    ensures
      Last(ss) == OnMain(DISPATCHING.(active := [Ready(0, EPOLLHUP)]), idle, One.Destroy(SHARED, true), {}, One.Gone)
  {
    ss := DestroyShared(idle);
    DestroyedIsRegistered(SHARED);
    ss := ExtendShared(ss, EndFunctors(0));
    ss := ExtendShared(ss, Poll(0, [Ready(0, EPOLLHUP)]));
    assert Last(ss).loops == [DISPATCHING.(active := [Ready(0, EPOLLHUP)])] + idle;
  }

  /** As written, with any number of loops: user code drops the last pointer to a reported channel. */
  lemma ReleaseWhileReported(idle: seq<Loop>) returns (ss: seq<State>)
    requires AllFirst(idle)
    ensures DanglingRun(ss, 0, |idle| + 1, true)
  {
    ss := ReportShared(idle);
    var s' := Effect(Last(ss), Release(7), true);
    forall l | 0 <= l < |s'.loops| ensures !Holds(s'.loops[l], 0) {
      if l >= 1 { assert s'.loops[l] == FIRST; }
    }
    assert OutsideOf(s', 0) == {};
    ss := Extend(ss, Release(7), true);
    assert OutsideOf(Last(ss), 0) == {};
    assert Ready(0, EPOLLHUP) in Last(ss).loops[0].active;
  }

  // -------------------------------------------------------------------- batches

  /** What is left of the batch is the tail of the queue as it was at the swap. */
  predicate BatchOf(loop: Loop, start: seq<Job>) {
    && loop.phase.Functors?
    && loop.due <= |start| && loop.due <= |loop.jobs|
    && loop.jobs[..loop.due] == start[|start| - loop.due..]
  }

  lemma SwapTakesTheQueue(s: State, l: nat, written: bool)
    requires Enabled(s, EndDispatch(l), written)
    ensures
      var loop := Apply(s, EndDispatch(l), written).loops[l];
      BatchOf(loop, s.loops[l].jobs) && loop.due == |s.loops[l].jobs|
  {
  }

  /** From one state of a batch on loop l to the next. */
  ghost predicate WithinBatch(s: State, s': State, l: nat, written: bool) {
    exists step: Step :: Enabled(s, step, written) && step != EndFunctors(l) && s' == Apply(s, step, written)
  }

  /** Loop l runs this job, with `due` still to run. */
  predicate RunsJob(s: State, s': State, l: nat, job: Job, due: nat, written: bool) {
    && Enabled(s, RunJob(l), written) && s.loops[l].jobs[0] == job && s.loops[l].due == due
    && s' == Apply(s, RunJob(l), written)
  }

  lemma BatchRunKept(s: State, l: nat, start: seq<Job>, written: bool)
    requires Enabled(s, RunJob(l), written) && BatchOf(s.loops[l], start)
    ensures
      var loop, loop' := s.loops[l], Effect(s, RunJob(l), written).loops[l];
      BatchOf(loop', start) && loop'.due == loop.due - 1 && loop.jobs[0] == start[|start| - loop.due]
  {
    var loop := s.loops[l];
    assert loop.jobs[..loop.due][0] == loop.jobs[0];
    assert loop.jobs[1..][..loop.due - 1] == loop.jobs[..loop.due][1..];
  }

  /** Between its swap and its end a batch only has jobs put behind it. */
  predicate QueueGrows(loop: Loop, loop': Loop) {
    loop'.phase == loop.phase && loop'.due == loop.due && loop.jobs <= loop'.jobs
  }

  lemma DispatchGrowsQueue(s: State, step: Step, l: nat, written: bool)
    requires Enabled(s, step, written) && OnDispatch(step) && l < |s.loops|
    ensures
      var s' := Effect(s, step, written);
      |s'.loops| == |s.loops| && QueueGrows(s.loops[l], s'.loops[l])
  {
  }

  lemma OtherJobLeavesQueue(s: State, k: nat, l: nat, written: bool)
    requires Enabled(s, RunJob(k), written) && l < |s.loops| && k != l
    ensures
      var s' := Effect(s, RunJob(k), written);
      |s'.loops| == |s.loops| && s'.loops[l] == s.loops[l]
  {
  }

  lemma StepGrowsQueue(s: State, step: Step, l: nat, written: bool)
    requires Enabled(s, step, written) && step != EndFunctors(l) && step != RunJob(l)
    requires l < |s.loops| && s.loops[l].phase.Functors?
    ensures
      var s' := Effect(s, step, written);
      |s'.loops| == |s.loops| && QueueGrows(s.loops[l], s'.loops[l])
  {
    if OnDispatch(step) {
      DispatchGrowsQueue(s, step, l, written);
    } else if step.RunJob? {
      OtherJobLeavesQueue(s, step.l, l, written);
    }
  }

  lemma BatchKept(loop: Loop, loop': Loop, start: seq<Job>)
    requires BatchOf(loop, start) && QueueGrows(loop, loop')
    ensures BatchOf(loop', start)
  {
  }

  lemma OthersKeepBatch(s: State, step: Step, l: nat, start: seq<Job>, written: bool)
    requires Enabled(s, step, written) && step != EndFunctors(l) && step != RunJob(l)
    requires l < |s.loops| && BatchOf(s.loops[l], start)
    ensures
      var s' := Effect(s, step, written);
      |s'.loops| == |s.loops| && BatchOf(s'.loops[l], start) && s'.loops[l].due == s.loops[l].due
  {
    StepGrowsQueue(s, step, l, written);
    BatchKept(s.loops[l], Effect(s, step, written).loops[l], start);
  }

  lemma FreeingKeepsLoops(s: State, step: Step, written: bool)
    requires Enabled(s, step, written)
    ensures Apply(s, step, written).loops == Effect(s, step, written).loops
  {
  }

  /** This step of a batch runs its next job or none of them. */
  predicate Advances(s: State, s': State, l: nat, start: seq<Job>, written: bool)
    requires l < |s.loops| && BatchOf(s.loops[l], start)
  {
    && |s'.loops| == |s.loops| && BatchOf(s'.loops[l], start)
    && var due := s.loops[l].due;
       || s'.loops[l].due == due
       || (s'.loops[l].due == due - 1 && RunsJob(s, s', l, start[|start| - due], due, written))
  }

  lemma RunAdvances(s: State, l: nat, start: seq<Job>, written: bool)
    requires Enabled(s, RunJob(l), written) && BatchOf(s.loops[l], start)
    ensures Advances(s, Apply(s, RunJob(l), written), l, start, written)
  {
    FreeingKeepsLoops(s, RunJob(l), written);
    BatchRunKept(s, l, start, written);
  }

  lemma OthersAdvance(s: State, step: Step, l: nat, start: seq<Job>, written: bool)
    requires Enabled(s, step, written) && step != EndFunctors(l) && step != RunJob(l)
    requires l < |s.loops| && BatchOf(s.loops[l], start)
    ensures Advances(s, Apply(s, step, written), l, start, written)
  {
    FreeingKeepsLoops(s, step, written);
    OthersKeepBatch(s, step, l, start, written);
  }

  lemma BatchStep(s: State, s': State, l: nat, start: seq<Job>, written: bool)
    requires WithinBatch(s, s', l, written) && l < |s.loops| && BatchOf(s.loops[l], start)
    ensures Advances(s, s', l, start, written)
  {
    var step :| Enabled(s, step, written) && step != EndFunctors(l) && s' == Apply(s, step, written);
    if step == RunJob(l) {
      RunAdvances(s, l, start, written);
    } else {
      OthersAdvance(s, step, l, start, written);
    }
  }

  /** Loop l has run the k-th job of the batch, at its turn. */
  ghost predicate HasRun(ss: seq<State>, l: nat, start: seq<Job>, k: nat, written: bool)
    requires k < |start|
  {
    exists i :: 0 < i < |ss| && RunsJob(ss[i - 1], ss[i], l, start[k], |start| - k, written)
  }

  lemma HasRunStays(ss: seq<State>, s: State, l: nat, start: seq<Job>, k: nat, written: bool)
    requires k < |start| && HasRun(ss, l, start, k, written)
    ensures HasRun(ss + [s], l, start, k, written)
  {
    var i :| 0 < i < |ss| && RunsJob(ss[i - 1], ss[i], l, start[k], |start| - k, written);
    var ss' := ss + [s];
    assert ss'[i - 1] == ss[i - 1] && ss'[i] == ss[i];
  }

  /** The jobs run so far when `due` are left. */
  ghost predicate HasRunAllBut(ss: seq<State>, l: nat, start: seq<Job>, due: nat, written: bool) {
    forall k :: 0 <= k < |start| - due ==> HasRun(ss, l, start, k, written)
  }

  lemma JobsRunStay(ss: seq<State>, s: State, l: nat, start: seq<Job>, due: nat, written: bool)
    requires HasRunAllBut(ss, l, start, due, written)
    ensures HasRunAllBut(ss + [s], l, start, due, written)
  {
    forall k | 0 <= k < |start| - due ensures HasRun(ss + [s], l, start, k, written) {
      HasRunStays(ss, s, l, start, k, written);
    }
  }

  lemma OneMoreRun(ss: seq<State>, s: State, l: nat, start: seq<Job>, due: nat, written: bool)
    requires ss != [] && 0 < due <= |start| && HasRunAllBut(ss, l, start, due, written)
    requires RunsJob(ss[|ss| - 1], s, l, start[|start| - due], due, written)
    ensures HasRunAllBut(ss + [s], l, start, due - 1, written)
  {
    var ss' := ss + [s];
    JobsRunStay(ss, s, l, start, due, written);
    assert RunsJob(ss'[|ss| - 1], ss'[|ss|], l, start[|start| - due], due, written);
    assert HasRun(ss', l, start, |start| - due, written);
  }

  /** The states of loop l from the swap of `start` on, within the batch. */
  ghost predicate Batch(ss: seq<State>, l: nat, start: seq<Job>, written: bool) {
    && ss != [] && l < |ss[0].loops|
    && BatchOf(ss[0].loops[l], start) && ss[0].loops[l].due == |start|
    && forall i :: 0 < i < |ss| ==> WithinBatch(ss[i - 1], ss[i], l, written)
  }

  lemma BatchFront(ss: seq<State>, l: nat, start: seq<Job>, written: bool)
    requires Batch(ss, l, start, written) && |ss| > 1
    ensures Batch(ss[..|ss| - 1], l, start, written)
    ensures WithinBatch(ss[|ss| - 2], ss[|ss| - 1], l, written)
  {
    var front := ss[..|ss| - 1];
    forall i | 0 < i < |front| ensures WithinBatch(front[i - 1], front[i], l, written) {
      assert WithinBatch(ss[i - 1], ss[i], l, written);
    }
  }

  /** Loop l has run what the batch no longer holds. */
  ghost predicate Progressed(ss: seq<State>, l: nat, start: seq<Job>, written: bool)
    requires ss != []
  {
    var s := ss[|ss| - 1];
    && l < |s.loops| && BatchOf(s.loops[l], start)
    && HasRunAllBut(ss, l, start, s.loops[l].due, written)
  }

  lemma BatchGoesOn(ss: seq<State>, s': State, l: nat, start: seq<Job>, written: bool)
    requires ss != [] && Progressed(ss, l, start, written) && WithinBatch(ss[|ss| - 1], s', l, written)
    ensures Progressed(ss + [s'], l, start, written)
  {
    var due := ss[|ss| - 1].loops[l].due;
    BatchStep(ss[|ss| - 1], s', l, start, written);
    if s'.loops[l].due < due {
      OneMoreRun(ss, s', l, start, due, written);
    } else {
      JobsRunStay(ss, s', l, start, due, written);
    }
  }

  lemma BatchStarts(ss: seq<State>, l: nat, start: seq<Job>, written: bool)
    requires Batch(ss, l, start, written) && |ss| == 1
    ensures Progressed(ss, l, start, written)
  {
  }

  lemma BatchGrows(ss: seq<State>, l: nat, start: seq<Job>, written: bool)
    requires Batch(ss, l, start, written) && |ss| > 1 && Progressed(ss[..|ss| - 1], l, start, written)
    ensures Progressed(ss, l, start, written)
  {
    BatchFront(ss, l, start, written);
    BatchGoesOn(ss[..|ss| - 1], ss[|ss| - 1], l, start, written);
    assert ss == ss[..|ss| - 1] + [ss[|ss| - 1]];
  }

  /**
   Whatever happens on any loop, a batch runs the jobs that were queued at its swap, each
   at its turn: when `due` are left the first |start| - due have been run ...
   */
  lemma {:induction false} BatchRunsInOrder(ss: seq<State>, l: nat, start: seq<Job>, written: bool)
    requires Batch(ss, l, start, written)
    ensures Progressed(ss, l, start, written)
  {
    if |ss| == 1 {
      BatchStarts(ss, l, start, written);
    } else {
      BatchFront(ss, l, start, written);
      BatchRunsInOrder(ss[..|ss| - 1], l, start, written);
      BatchGrows(ss, l, start, written);
    }
  }

  /** ... and so all of them by the time it can end, and none that was queued since. */
  lemma BatchRunsWhatWasQueued(ss: seq<State>, l: nat, start: seq<Job>, written: bool)
    requires Batch(ss, l, start, written) && Enabled(ss[|ss| - 1], EndFunctors(l), written)
    ensures HasRunAllBut(ss, l, start, 0, written)
  {
    BatchRunsInOrder(ss, l, start, written);
  }
}
