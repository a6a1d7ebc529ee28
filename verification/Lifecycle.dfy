/**
 Connections over their whole life (Netmux/TcpServer.cc, Netmux/TcpConnection.cc): a
 state machine of one server, any number of event loops, and any number of connections.

 Loop 0 is the server's own loop.  Each loop alternates between dispatching its active
 list and running its queue; by the FIFO theorem of `EventLoopProtocol` the current batch
 and the pending queue are one list, of which the first `due` jobs are the batch.  A
 connection is alive while a shared pointer to it exists: in the server's map, in a
 queued closure, in a closure that has run but whose batch has not ended, in the frame of
 a function that is executing, the local pointer of ~TcpServer included, or kept by user
 code on any thread.  A connection that loses its last pointer is freed in the same step,
 and with it its `Socket`, which closes the descriptor; the kernel then drops the
 descriptor from the interest set.  Dispatching a freed channel has no meaning, and so no
 step.

 `written` selects the code as it stands, where removeConnection posts itself, so that
 loop 0's thread never leaves it, and remove() registers; otherwise removeConnection posts
 removeConnectionInLoop and remove() removes.
 */
module Lifecycle {
  import opened Registration
  import opened Connections
  import One = OneConnection

  type ConnId = nat

  datatype Job = Establish(c: ConnId) | Destroy(c: ConnId) | Remove(c: ConnId)

  datatype Ready = Ready(c: ConnId, revents: Mask)

  datatype Frame =
    | Idle
    | Handling(c: ConnId, rest: seq<Callback>)  // handleEvent: callbacks still to run, with the tie locked
    | Closing(c: ConnId, rest: seq<Callback>)   // handleClose, before closeCallback_
    | Creating(c: ConnId)  // newConnection, between lines 80 and 85
    | Removing(c: ConnId)  // removeConnectionInLoop, between lines 94 and 96
    | Destructing          // ~TcpServer, between two turns of its loop
    | Dropping(c: ConnId)  // ... between lines 40 and 41, with the local pointer
    | Stuck(c: ConnId)     // removeConnection as written

  datatype Loop = Loop(
    phase: One.Phase,
    active: seq<Ready>,   // channels reported and not yet dispatched
    jobs: seq<Job>,
    due: nat,
    held: set<ConnId>,    // closures run in this batch, still in the vector
    frame: Frame
  )

  datatype State = State(
    loops: seq<Loop>,
    conns: map<ConnId, One.Entry>,
    mapped: set<ConnId>,        // connections_
    outside: map<nat, ConnId>,  // threads whose user code keeps a pointer
    shutting: set<nat>,         // those of them between the test and the store of shutdown()
    server: One.Server
  )

  const FIRST: Loop := Loop(One.Waiting, [], [], 0, {}, Idle)

  ghost predicate Init(s: State) {
    && |s.loops| > 0
    && (forall l :: 0 <= l < |s.loops| ==> s.loops[l] == FIRST)
    && s.conns == map[] && s.mapped == {} && s.outside == map[] && s.shutting == {} && s.server.Serving?
  }

  datatype Step =
    | Poll(l: nat, active: seq<Ready>)
    | Accept(c: ConnId, on: nat)  // newConnection up to line 80
    | PostEstablish               // line 85
    | Handle(l: nat)              // handleEvent up to its first callback
    | RunCallback(l: nat, endOfFile: bool)  // the next callback; handleClose up to line 165
    | ClosePost(l: nat)           // line 166
    | EndHandle(l: nat)
    | EndDispatch(l: nat)
    | RunJob(l: nat)
    | FinishRemove                // line 96 of TcpServer.cc
    | EndFunctors(l: nat)
    | BeginDestruct
    | DropOne(c: ConnId)          // one turn of ~TcpServer's loop, lines 37-40
    | EndDrop                     // line 41
    | EndDestruct
    | Share(tid: nat, c: ConnId)  // user code copies a pointer
    | Release(tid: nat)
    | ShutTest(tid: nat)
    | ShutSet(tid: nat)

  predicate At(s: State, l: nat, phase: One.Phase, frame: Frame) {
    l < |s.loops| && s.loops[l].phase == phase && s.loops[l].frame == frame
  }

  predicate Known(s: State, c: ConnId) {
    c in s.conns && s.conns[c].loop < |s.loops|
  }

  /** What epoll_wait may report on loop l: registered channels, each once, within their masks. */
  predicate Deliverable(s: State, l: nat, active: seq<Ready>) {
    && (forall i :: 0 <= i < |active| ==>
          && Known(s, active[i].c)
          && s.conns[active[i].c].loop == l
          && s.conns[active[i].c].conn.reg.kernel.Present?
          && Reportable(active[i].revents, s.conns[active[i].c].conn.reg.kernel.mask))
    && (forall i, j :: 0 <= i < j < |active| ==> active[i].c != active[j].c)
  }

  predicate Enabled(s: State, step: Step, written: bool)
  {
    |s.loops| > 0 &&
    match step
    case Poll(l, active) => At(s, l, One.Waiting, Idle) && Deliverable(s, l, active)
    case Accept(c, on) =>
      At(s, 0, One.Dispatching, Idle) && s.server.Serving? && c !in s.conns && on < |s.loops|
    case PostEstablish => s.loops[0].frame.Creating? && Known(s, s.loops[0].frame.c)
    case Handle(l) =>
      && At(s, l, One.Dispatching, Idle) && s.loops[l].active != []
      && Known(s, s.loops[l].active[0].c) && Alive(s, s.loops[l].active[0].c)
    case RunCallback(l, _) =>
      && l < |s.loops| && s.loops[l].frame.Handling? && s.loops[l].frame.rest != []
      && Known(s, s.loops[l].frame.c)
    case ClosePost(l) =>
      l < |s.loops| && s.loops[l].frame.Closing? && Known(s, s.loops[l].frame.c)
    case EndHandle(l) => l < |s.loops| && s.loops[l].frame.Handling? && s.loops[l].frame.rest == []
    case EndDispatch(l) => At(s, l, One.Dispatching, Idle) && s.loops[l].active == []
    case RunJob(l) =>
      && At(s, l, One.Functors, Idle) && s.loops[l].due > 0 && s.loops[l].jobs != []
      && Known(s, s.loops[l].jobs[0].c)
    case FinishRemove => s.loops[0].frame.Removing? && Known(s, s.loops[0].frame.c)
    case EndFunctors(l) => At(s, l, One.Functors, Idle) && s.loops[l].due == 0
    case BeginDestruct => s.server.Serving? && !s.loops[0].phase.Dispatching? && s.loops[0].frame == Idle
    case DropOne(c) => s.loops[0].frame.Destructing? && c in s.mapped && Known(s, c)
    case EndDrop => s.loops[0].frame.Dropping?
    case EndDestruct => s.loops[0].frame.Destructing? && s.mapped == {}
    case Share(tid, c) => tid !in s.outside && Known(s, c) && Alive(s, c)
    case Release(tid) => tid in s.outside && tid !in s.shutting
    case ShutTest(tid) =>
      && tid in s.outside && tid !in s.shutting
      && s.outside[tid] in s.conns && s.conns[s.outside[tid]].conn.state.Connected?
    case ShutSet(tid) => tid in s.shutting && tid in s.outside && s.outside[tid] in s.conns
  }

  function SetLoop(s: State, l: nat, loop: Loop): State
    requires l < |s.loops|
  {
    s.(loops := s.loops[l := loop])
  }

  function SetFrame(s: State, l: nat, frame: Frame): State
    requires l < |s.loops|
  {
    SetLoop(s, l, s.loops[l].(frame := frame))
  }

  /** queueInLoop on loop l. */
  function Push(s: State, l: nat, job: Job): State
    requires l < |s.loops|
  {
    SetLoop(s, l, s.loops[l].(jobs := s.loops[l].jobs + [job]))
  }

  function SetEntry(s: State, c: ConnId, e: One.Entry): State {
    s.(conns := s.conns[c := e])
  }

  function PopJob(s: State, l: nat): State
    requires l < |s.loops| && s.loops[l].jobs != [] && s.loops[l].due > 0
  {
    var loop := s.loops[l];
    SetLoop(s, l, loop.(jobs := loop.jobs[1..], due := loop.due - 1, held := loop.held + {loop.jobs[0].c}))
  }

  /** What a step does before any connection is freed. */
  function Effect(s: State, step: Step, written: bool): State
    requires Enabled(s, step, written)
  {
    match step
    case Poll(l, active) => SetLoop(s, l, s.loops[l].(phase := One.Dispatching, active := active))
    case Accept(c, on) =>
      var s' := SetFrame(s, 0, Creating(c));
      s'.(conns := s.conns[c := One.Entry(on, CREATED, 0, 0, 0, 0, false, false)], mapped := s.mapped + {c})
    case PostEstablish =>
      var c := s.loops[0].frame.c;
      var on := s.conns[c].loop;
      var s' := SetFrame(s, 0, Idle);
      if on == 0 then SetEntry(s', c, One.Establish(s.conns[c])) else Push(s', on, Establish(c))
    case Handle(l) =>
      var loop := s.loops[l];
      var Ready(c, revents) := loop.active[0];
      var e := s.conns[c];
      var s' := SetLoop(s, l, loop.(frame := Handling(c, Callbacks(revents)), active := loop.active[1..]));
      SetEntry(s', c, e.(bare := e.bare || One.BareHangUp(revents, e.conn.reg.events)))
    case RunCallback(l, endOfFile) =>
      var Handling(c, rest) := s.loops[l].frame;
      if One.Closes(rest[0], endOfFile)
      then SetEntry(SetFrame(s, l, Closing(c, rest[1..])), c, One.Close(s.conns[c]))
      else SetFrame(s, l, Handling(c, rest[1..]))
    case ClosePost(l) =>
      var Closing(c, rest) := s.loops[l].frame;
      var s' := SetFrame(s, l, Handling(c, rest));
      if written && l == 0 then SetFrame(s, l, Stuck(c))
      else if s.server.Gone? then s'
      else if l != 0 then Push(s', 0, Remove(c))
      else Push(s'.(mapped := s.mapped - {c}), s.conns[c].loop, Destroy(c))
    case EndHandle(l) => SetFrame(s, l, Idle)
    case EndDispatch(l) => SetLoop(s, l, s.loops[l].(phase := One.Functors, due := |s.loops[l].jobs|))
    case RunJob(l) =>
      var job := s.loops[l].jobs[0];
      var s' := PopJob(s, l);
      (match job
       case Establish(c) => SetEntry(s', c, One.Establish(s.conns[c]))
       case Destroy(c) => SetEntry(s', c, One.Destroy(s.conns[c], written))
       case Remove(c) =>
         if written then SetFrame(s', l, Stuck(c))
         else if s.server.Gone? then s'
         else SetFrame(s'.(mapped := s.mapped - {c}), l, Removing(c)))
    case FinishRemove =>
      var c := s.loops[0].frame.c;
      Push(SetFrame(s, 0, Idle), s.conns[c].loop, Destroy(c))
    case EndFunctors(l) => SetLoop(s, l, s.loops[l].(phase := One.Waiting, held := {}))
    case BeginDestruct => SetFrame(s, 0, Destructing).(server := One.Dying)
    case DropOne(c) =>
      var s' := SetFrame(s, 0, Dropping(c)).(mapped := s.mapped - {c});
      if s.conns[c].loop == 0 then SetEntry(s', c, One.Destroy(s.conns[c], written))
      else Push(s', s.conns[c].loop, Destroy(c))
    case EndDrop => SetFrame(s, 0, Destructing)
    case EndDestruct => SetFrame(s, 0, Idle).(server := One.Gone)
    case Share(tid, c) => SetEntry(s, c, s.conns[c].(shared := true)).(outside := s.outside[tid := c])
    case Release(tid) => s.(outside := s.outside - {tid})
    case ShutTest(tid) => s.(shutting := s.shutting + {tid})
    case ShutSet(tid) =>
      var c := s.outside[tid];
      var e := s.conns[c];
      SetEntry(s, c, e.(conn := e.conn.(state := Disconnecting))).(shutting := s.shutting - {tid})
  }

  // ------------------------------------------------------------------- liveness

  predicate Holds(loop: Loop, c: ConnId) {
    || Establish(c) in loop.jobs || Destroy(c) in loop.jobs || Remove(c) in loop.jobs
    || c in loop.held
    || (!loop.frame.Idle? && !loop.frame.Destructing? && loop.frame.c == c)
  }

  /** Some shared pointer to the connection exists. */
  predicate Alive(s: State, c: ConnId) {
    || c in s.mapped
    || (exists l :: 0 <= l < |s.loops| && Holds(s.loops[l], c))
    || OutsideOf(s, c) != {}
  }

  /** The threads on which user code keeps a pointer to `c`. */
  function OutsideOf(s: State, c: ConnId): set<nat> {
    set tid | tid in s.outside && s.outside[tid] == c
  }

  /** Connections without shared pointers are freed, and their descriptors closed. */
  function CloseFreed(s: State): State {
    s.(conns := map c | c in s.conns :: if Alive(s, c) then s.conns[c] else One.Closed(s.conns[c]))
  }

  function Apply(s: State, step: Step, written: bool): State
    requires Enabled(s, step, written)
  {
    CloseFreed(Effect(s, step, written))
  }

  ghost predicate Next(s: State, s': State, written: bool) {
    exists step: Step :: Enabled(s, step, written) && s' == Apply(s, step, written)
  }

  ghost predicate StepAt(ss: seq<State>, i: int, written: bool)
    requires 0 < i < |ss|
  {
    Next(ss[i - 1], ss[i], written)
  }

  ghost predicate Run(ss: seq<State>, written: bool) {
    && ss != [] && Init(ss[0])
    && forall i :: 0 < i < |ss| ==> StepAt(ss, i, written)
  }

  lemma RunFront(ss: seq<State>, written: bool)
    requires Run(ss, written) && |ss| > 1
    ensures Run(ss[..|ss| - 1], written) && Next(ss[|ss| - 2], ss[|ss| - 1], written)
  {
    var front := ss[..|ss| - 1];
    forall i | 0 < i < |front| ensures StepAt(front, i, written) {
      assert StepAt(ss, i, written);
    }
    assert StepAt(ss, |ss| - 1, written);
  }

  // ------------------------------------------------- loops and what they refer to

  ghost predicate LoopInv(s: State, l: nat)
    requires l < |s.loops|
  {
    var loop := s.loops[l];
    && loop.due <= |loop.jobs|
    && (loop.active != [] || loop.frame.Handling? || loop.frame.Closing? || loop.frame.Creating?
        ==> loop.phase.Dispatching?)
    && (loop.frame.Destructing? || loop.frame.Removing? || loop.frame.Dropping? ==> !loop.phase.Dispatching?)
    && (l != 0 ==> loop.frame.Idle? || loop.frame.Handling? || loop.frame.Closing?)
    && (forall job :: job in loop.jobs ==>
          Known(s, job.c) && (if job.Remove? then l == 0 else s.conns[job.c].loop == l))
    && (forall r :: r in loop.active ==> Known(s, r.c) && s.conns[r.c].loop == l)
    && (forall c :: c in loop.held ==> Known(s, c) && (l == 0 || s.conns[c].loop == l))
    && (loop.frame.Handling? || loop.frame.Closing? ==>
          Known(s, loop.frame.c) && s.conns[loop.frame.c].loop == l)
    && (loop.frame.Creating? || loop.frame.Removing? || loop.frame.Dropping? || loop.frame.Stuck? ==>
          Known(s, loop.frame.c))
  }

  /** Connections keep their loop, and there are always the same loops. */
  ghost predicate HomesKept(s: State, s': State) {
    && |s'.loops| == |s.loops|
    && forall c :: c in s.conns ==> c in s'.conns && s'.conns[c].loop == s.conns[c].loop
  }

  predicate OnDispatch(step: Step) {
    step.Handle? || step.RunCallback? || step.ClosePost? || step.EndHandle?
  }

  predicate OnPhase(step: Step) {
    step.Poll? || step.EndDispatch? || step.EndFunctors? || step.RunJob?
  }

  lemma DispatchKeepsHomes(s: State, step: Step, written: bool)
    requires Enabled(s, step, written) && OnDispatch(step)
    ensures HomesKept(s, Effect(s, step, written))
  {
  }

  lemma PhaseKeepsHomes(s: State, step: Step, written: bool)
    requires Enabled(s, step, written) && OnPhase(step)
    ensures HomesKept(s, Effect(s, step, written))
  {
  }

  lemma EffectKeepsHomes(s: State, step: Step, written: bool)
    requires Enabled(s, step, written)
    ensures HomesKept(s, Effect(s, step, written))
  {
    if OnDispatch(step) {
      DispatchKeepsHomes(s, step, written);
    } else if OnPhase(step) {
      PhaseKeepsHomes(s, step, written);
    }
  }

  lemma SameLoopKept(s: State, s': State, l: nat)
    requires l < |s.loops| && LoopInv(s, l) && HomesKept(s, s') && s'.loops[l] == s.loops[l]
    ensures LoopInv(s', l)
  {
  }

  lemma PushedLoopKept(s: State, s': State, l: nat, job: Job)
    requires l < |s.loops| && LoopInv(s, l) && HomesKept(s, s')
    requires Known(s, job.c) && (if job.Remove? then l == 0 else s.conns[job.c].loop == l)
    requires s'.loops[l] == s.loops[l].(jobs := s.loops[l].jobs + [job])
    ensures LoopInv(s', l)
  {
  }

  /** The loop on which a step acts; the server's, if none is named. */
  function Actor(step: Step): nat {
    match step
    case Poll(l, _) => l
    case Handle(l) => l
    case RunCallback(l, _) => l
    case ClosePost(l) => l
    case EndHandle(l) => l
    case EndDispatch(l) => l
    case RunJob(l) => l
    case EndFunctors(l) => l
    case _ => 0
  }

  predicate Queues(step: Step) {
    step.PostEstablish? || step.ClosePost? || step.FinishRemove? || step.DropOne?
  }

  lemma HandlerKept(s: State, step: Step, written: bool)
    requires Enabled(s, step, written) && step.Handle? && LoopInv(s, step.l)
    requires HomesKept(s, Effect(s, step, written))
    ensures LoopInv(Effect(s, step, written), step.l)
  {
    var active := s.loops[step.l].active;
    assert active[0] in active;
    forall r | r in active[1..] ensures r in active {}
  }

  lemma ReframedLoopKept(s: State, s': State, l: nat, frame: Frame)
    requires l < |s.loops| && LoopInv(s, l) && HomesKept(s, s') && s.loops[l].frame.Handling?
    requires (frame.Handling? || frame.Closing?) && frame.c == s.loops[l].frame.c
    requires s'.loops[l] == s.loops[l].(frame := frame)
    ensures LoopInv(s', l)
  {
  }

  lemma CallbackKept(s: State, step: Step, written: bool)
    requires Enabled(s, step, written) && step.RunCallback? && LoopInv(s, step.l)
    requires HomesKept(s, Effect(s, step, written))
    ensures LoopInv(Effect(s, step, written), step.l)
  {
    var s' := Effect(s, step, written);
    ReframedLoopKept(s, s', step.l, s'.loops[step.l].frame);
  }

  lemma PollKept(s: State, step: Step, written: bool)
    requires Enabled(s, step, written) && step.Poll? && LoopInv(s, step.l)
    requires HomesKept(s, Effect(s, step, written))
    ensures LoopInv(Effect(s, step, written), step.l)
  {
  }

  lemma ActorKept(s: State, step: Step, written: bool)
    requires Enabled(s, step, written) && !Queues(step) && !step.RunJob? && !step.Handle?
    requires !step.RunCallback? && !step.Poll?
    requires LoopInv(s, Actor(step)) && HomesKept(s, Effect(s, step, written))
    ensures LoopInv(Effect(s, step, written), Actor(step))
  {
  }

  /** One job popped from the queue, whatever else the step does. */
  lemma PoppedLoopKept(s: State, s': State, l: nat, frame: Frame)
    requires l < |s.loops| && LoopInv(s, l) && HomesKept(s, s')
    requires s.loops[l].phase.Functors? && s.loops[l].jobs != [] && s.loops[l].due > 0
    requires
      var c := s.loops[l].jobs[0].c;
      frame.Idle? || (l == 0 && (frame == Removing(c) || frame == Stuck(c)))
    requires s'.loops[l] == PopJob(s, l).loops[l].(frame := frame)
    ensures LoopInv(s', l)
  {
    var jobs := s.loops[l].jobs;
    assert jobs[0] in jobs;
    forall job | job in jobs[1..] ensures job in jobs {}
  }

  lemma RunnerKept(s: State, step: Step, written: bool)
    requires Enabled(s, step, written) && step.RunJob? && LoopInv(s, step.l)
    requires HomesKept(s, Effect(s, step, written))
    ensures LoopInv(Effect(s, step, written), step.l)
  {
    var s' := Effect(s, step, written);
    assert s.loops[step.l].jobs[0] in s.loops[step.l].jobs;
    PoppedLoopKept(s, s', step.l, s'.loops[step.l].frame);
  }

  lemma OthersKept(s: State, step: Step, l: nat, written: bool)
    requires Enabled(s, step, written) && !Queues(step) && l < |s.loops| && l != Actor(step)
    ensures Effect(s, step, written).loops[l] == s.loops[l]
  {
  }

  /** One loop changes its frame, some loop may receive a job. */
  lemma FramedPush(s: State, s': State, l: nat, k: nat, frame: Frame, job: Job)
    requires |s.loops| > 0 && k < |s.loops| && l < |s.loops| && LoopInv(s, l) && HomesKept(s, s')
    requires Known(s, job.c)
    requires
      var framed := SetFrame(s, k, frame);
      var dest := if job.Remove? then 0 else s.conns[job.c].loop;
      s'.loops == framed.loops || s'.loops == Push(framed, dest, job).loops
    requires l == k ==> LoopInv(SetFrame(s, k, frame), k)
    ensures LoopInv(s', l)
  {
    var framed := SetFrame(s, k, frame);
    var dest := if job.Remove? then 0 else s.conns[job.c].loop;
    assert LoopInv(framed, l);
    if s'.loops[l] == framed.loops[l] {
      SameLoopKept(framed, s', l);
    } else {
      PushedLoopKept(framed, s', l, job);
    }
  }

  lemma ClosePostKept(s: State, step: Step, l: nat, written: bool)
    requires Enabled(s, step, written) && step.ClosePost? && l < |s.loops|
    requires LoopInv(s, l) && LoopInv(s, step.l)
    ensures LoopInv(Effect(s, step, written), l)
  {
    var k := step.l;
    var Closing(c, rest) := s.loops[k].frame;
    EffectKeepsHomes(s, step, written);
    var frame := if written && k == 0 then Stuck(c) else Handling(c, rest);
    FramedPush(s, Effect(s, step, written), l, k, frame, if k != 0 then Remove(c) else Destroy(c));
  }

  lemma PostEstablishKept(s: State, l: nat, written: bool)
    requires Enabled(s, PostEstablish, written) && l < |s.loops| && LoopInv(s, l) && LoopInv(s, 0)
    ensures LoopInv(Effect(s, PostEstablish, written), l)
  {
    EffectKeepsHomes(s, PostEstablish, written);
    FramedPush(s, Effect(s, PostEstablish, written), l, 0, Idle, Establish(s.loops[0].frame.c));
  }

  lemma FinishRemoveKept(s: State, l: nat, written: bool)
    requires Enabled(s, FinishRemove, written) && l < |s.loops| && LoopInv(s, l) && LoopInv(s, 0)
    ensures LoopInv(Effect(s, FinishRemove, written), l)
  {
    EffectKeepsHomes(s, FinishRemove, written);
    FramedPush(s, Effect(s, FinishRemove, written), l, 0, Idle, Destroy(s.loops[0].frame.c));
  }

  lemma DropOneKept(s: State, c: ConnId, l: nat, written: bool)
    requires Enabled(s, DropOne(c), written) && l < |s.loops| && LoopInv(s, l) && LoopInv(s, 0)
    ensures LoopInv(Effect(s, DropOne(c), written), l)
  {
    EffectKeepsHomes(s, DropOne(c), written);
    FramedPush(s, Effect(s, DropOne(c), written), l, 0, Dropping(c), Destroy(c));
  }

  lemma LoopKept(s: State, step: Step, l: nat, written: bool)
    requires Enabled(s, step, written) && l < |s.loops|
    requires LoopInv(s, 0) && LoopInv(s, l) && (Actor(step) < |s.loops| ==> LoopInv(s, Actor(step)))
    ensures |Effect(s, step, written).loops| == |s.loops| && LoopInv(Effect(s, step, written), l)
  {
    EffectKeepsHomes(s, step, written);
    if step.ClosePost? {
      ClosePostKept(s, step, l, written);
    } else if step.PostEstablish? {
      PostEstablishKept(s, l, written);
    } else if step.FinishRemove? {
      FinishRemoveKept(s, l, written);
    } else if step.DropOne? {
      DropOneKept(s, step.c, l, written);
    } else if l != Actor(step) {
      OthersKept(s, step, l, written);
      SameLoopKept(s, Effect(s, step, written), l);
    } else if step.RunJob? {
      RunnerKept(s, step, written);
    } else if step.Handle? {
      HandlerKept(s, step, written);
    } else if step.RunCallback? {
      CallbackKept(s, step, written);
    } else if step.Poll? {
      PollKept(s, step, written);
    } else {
      ActorKept(s, step, written);
    }
  }

  // ------------------------------------------------------- one connection's view

  /** The events of `c` in an active list. */
  function ReportsOf(active: seq<Ready>, c: ConnId): seq<Mask> {
    if active == [] then []
    else (if active[0].c == c then [active[0].revents] else []) + ReportsOf(active[1..], c)
  }

  function CallOf(job: Job, c: ConnId): seq<One.Call> {
    if job == Establish(c) then [One.Up] else if job == Destroy(c) then [One.Down] else []
  }

  /** The calls of connectEstablished and connectDestroyed on `c` in a queue. */
  function CallsOf(jobs: seq<Job>, c: ConnId): seq<One.Call> {
    if jobs == [] then [] else CallOf(jobs[0], c) + CallsOf(jobs[1..], c)
  }

  function ActivityOf(frame: Frame, c: ConnId): One.Activity {
    match frame
    case Handling(d, rest) => if c == d then One.Handler(rest) else One.Resting
    case Closing(d, rest) => if c == d then One.Closer(rest) else One.Resting
    case _ => One.Resting
  }

  function ViewOf(s: State, c: ConnId): One.View
    requires |s.loops| > 0 && Known(s, c)
  {
    var e := s.conns[c];
    var home, main := s.loops[e.loop], s.loops[0];
    One.View(
      e, c in s.mapped, s.server, home.phase,
      ReportsOf(home.active, c), ActivityOf(home.frame, c), CallsOf(home.jobs, c),
      multiset(main.jobs)[Remove(c)],
      c in home.held, e.loop != 0 && c in main.held,
      main.frame == Creating(c), main.frame == Removing(c), main.frame == Dropping(c), main.frame == Stuck(c),
      OutsideOf(s, c))
  }

  lemma Regroup<T>(a: seq<T>, b: seq<T>, c: seq<T>)
    ensures a + (b + c) == a + b + c
  {
  }

  lemma {:induction false} CallsSnoc(jobs: seq<Job>, job: Job, c: ConnId)
    ensures CallsOf(jobs + [job], c) == CallsOf(jobs, c) + CallOf(job, c)
  {
    if jobs == [] {
      assert jobs + [job] == [job];
      assert [job][1..] == [];
    } else {
      CallsSnoc(jobs[1..], job, c);
      assert (jobs + [job])[0] == jobs[0] && (jobs + [job])[1..] == jobs[1..] + [job];
      Regroup(CallOf(jobs[0], c), CallsOf(jobs[1..], c), CallOf(job, c));
    }
  }

  lemma CallsPush(jobs: seq<Job>, job: Job, c: ConnId)
    ensures CallsOf(jobs + [job], c) == CallsOf(jobs, c) + CallOf(job, c)
    ensures multiset(jobs + [job])[Remove(c)] == multiset(jobs)[Remove(c)] + (if job == Remove(c) then 1 else 0)
  {
    CallsSnoc(jobs, job, c);
  }

  lemma CallsPop(jobs: seq<Job>, c: ConnId)
    requires jobs != []
    ensures CallsOf(jobs, c) == CallOf(jobs[0], c) + CallsOf(jobs[1..], c)
    ensures multiset(jobs)[Remove(c)] == multiset(jobs[1..])[Remove(c)] + (if jobs[0] == Remove(c) then 1 else 0)
  {
    assert jobs == [jobs[0]] + jobs[1..];
  }

  /** In a queue, `c` is called exactly if one of the two calls is there. */
  lemma {:induction false} CallsPresent(jobs: seq<Job>, c: ConnId)
    ensures CallsOf(jobs, c) != [] <==> Establish(c) in jobs || Destroy(c) in jobs
  {
    if jobs != [] {
      CallsPresent(jobs[1..], c);
      assert jobs == [jobs[0]] + jobs[1..];
    }
  }

  lemma {:induction false} ReportsPresent(active: seq<Ready>, c: ConnId)
    ensures ReportsOf(active, c) != [] <==> exists i :: 0 <= i < |active| && active[i].c == c
  {
    if active != [] {
      ReportsPresent(active[1..], c);
      if i :| 0 <= i < |active| && active[i].c == c {
        if i > 0 { assert active[1..][i - 1] == active[i]; }
      }
      if ReportsOf(active[1..], c) != [] {
        var i :| 0 <= i < |active[1..]| && active[1..][i].c == c;
        assert active[i + 1].c == c;
      }
    }
  }

  lemma {:induction false} ReportedOnce(active: seq<Ready>, c: ConnId)
    requires forall i, j :: 0 <= i < j < |active| ==> active[i].c != active[j].c
    ensures |ReportsOf(active, c)| <= 1
    ensures ReportsOf(active, c) != [] ==> Ready(c, ReportsOf(active, c)[0]) in active
  {
    if active != [] {
      ReportedOnce(active[1..], c);
      ReportsPresent(active[1..], c);
      assert active == [active[0]] + active[1..];
    }
  }

  // ------------------------------------------- every step is one event of each view

  ghost predicate Follows(v: One.View, v': One.View, written: bool) {
    exists event: One.Event :: One.Enabled(v, event, written) && v' == One.Apply(v, event, written)
  }

  lemma Unseen(v: One.View, written: bool)
    ensures Follows(v, v, written)
  {
    assert One.Enabled(v, One.Unseen, written) && v == One.Apply(v, One.Unseen, written);
  }

  /** A loop means the same to the connections that live on it, and loop 0 to all. */
  predicate SameHome(loop: Loop, loop': Loop, c: ConnId) {
    && loop'.phase == loop.phase
    && ReportsOf(loop'.active, c) == ReportsOf(loop.active, c)
    && ActivityOf(loop'.frame, c) == ActivityOf(loop.frame, c)
    && CallsOf(loop'.jobs, c) == CallsOf(loop.jobs, c)
    && (c in loop'.held <==> c in loop.held)
  }

  predicate SameMain(loop: Loop, loop': Loop, c: ConnId) {
    && multiset(loop'.jobs)[Remove(c)] == multiset(loop.jobs)[Remove(c)]
    && (c in loop'.held <==> c in loop.held)
    && (loop'.frame == Creating(c) <==> loop.frame == Creating(c))
    && (loop'.frame == Removing(c) <==> loop.frame == Removing(c))
    && (loop'.frame == Dropping(c) <==> loop.frame == Dropping(c))
    && (loop'.frame == Stuck(c) <==> loop.frame == Stuck(c))
  }

  lemma SameView(s: State, s': State, c: ConnId, written: bool)
    requires |s.loops| > 0 && Known(s, c) && |s'.loops| == |s.loops| && c in s'.conns
    requires s'.conns[c] == s.conns[c] && (c in s'.mapped <==> c in s.mapped)
    requires s'.server == s.server && OutsideOf(s', c) == OutsideOf(s, c)
    requires SameHome(s.loops[s.conns[c].loop], s'.loops[s.conns[c].loop], c)
    requires SameMain(s.loops[0], s'.loops[0], c)
    ensures ViewOf(s', c) == ViewOf(s, c) && Follows(ViewOf(s, c), ViewOf(s', c), written)
  {
    Unseen(ViewOf(s, c), written);
  }

  lemma PollFollows(s: State, l: nat, active: seq<Ready>, c: ConnId, written: bool)
    requires Enabled(s, Poll(l, active), written) && Known(s, c) && l == s.conns[c].loop
    ensures Follows(ViewOf(s, c), ViewOf(Effect(s, Poll(l, active), written), c), written)
  {
    var v, s' := ViewOf(s, c), Effect(s, Poll(l, active), written);
    ReportedOnce(active, c);
    var event := One.Reported(ReportsOf(active, c));
    assert One.Enabled(v, event, written) && ViewOf(s', c) == One.Apply(v, event, written);
  }

  lemma PollAside(s: State, l: nat, active: seq<Ready>, c: ConnId, written: bool)
    requires Enabled(s, Poll(l, active), written) && Known(s, c) && l != s.conns[c].loop
    ensures Follows(ViewOf(s, c), ViewOf(Effect(s, Poll(l, active), written), c), written)
  {
    SameView(s, Effect(s, Poll(l, active), written), c, written);
  }

  predicate OfDispatch(frame: Frame) {
    frame.Idle? || frame.Handling? || frame.Closing?
  }

  /** Its loop turns to another activity. */
  lemma ReframedView(s: State, s': State, c: ConnId, frame: Frame, active: seq<Ready>)
    requires |s.loops| > 0 && Known(s, c) && |s'.loops| == |s.loops|
    requires c in s'.conns && s'.conns[c].loop == s.conns[c].loop
    requires s'.mapped == s.mapped && s'.server == s.server && s'.outside == s.outside
    requires OfDispatch(s.loops[s.conns[c].loop].frame) && OfDispatch(frame)
    requires s'.loops == s.loops[s.conns[c].loop := s.loops[s.conns[c].loop].(frame := frame, active := active)]
    ensures ViewOf(s', c) == ViewOf(s, c).(
              e := s'.conns[c], doing := ActivityOf(frame, c), reports := ReportsOf(active, c))
  {
  }

  lemma HandleFollows(s: State, l: nat, c: ConnId, written: bool)
    requires Enabled(s, Handle(l), written) && s.loops[l].active[0].c == c && s.conns[c].loop == l
    requires One.Held(ViewOf(s, c))
    ensures Follows(ViewOf(s, c), ViewOf(Effect(s, Handle(l), written), c), written)
  {
    var v, s' := ViewOf(s, c), Effect(s, Handle(l), written);
    var active := s.loops[l].active;
    ReframedView(s, s', c, Handling(c, Callbacks(active[0].revents)), active[1..]);
    assert v.reports == [active[0].revents] + ReportsOf(active[1..], c);
    assert One.Enabled(v, One.Taken, written) && ViewOf(s', c) == One.Apply(v, One.Taken, written);
  }

  lemma HandleAside(s: State, l: nat, c: ConnId, written: bool)
    requires Enabled(s, Handle(l), written) && Known(s, c) && s.loops[l].active[0].c != c
    ensures Follows(ViewOf(s, c), ViewOf(Effect(s, Handle(l), written), c), written)
  {
    SameView(s, Effect(s, Handle(l), written), c, written);
  }

  lemma ClosingFollows(s: State, l: nat, eof: bool, c: ConnId, written: bool)
    requires Enabled(s, RunCallback(l, eof), written) && s.loops[l].frame.c == c && s.conns[c].loop == l
    requires One.Closes(s.loops[l].frame.rest[0], eof)
    ensures Follows(ViewOf(s, c), ViewOf(Effect(s, RunCallback(l, eof), written), c), written)
  {
    var v, s' := ViewOf(s, c), Effect(s, RunCallback(l, eof), written);
    ReframedView(s, s', c, Closing(c, s.loops[l].frame.rest[1..]), s.loops[l].active);
    assert One.Enabled(v, One.Called(eof), written) && ViewOf(s', c) == One.Apply(v, One.Called(eof), written);
  }

  lemma PassingFollows(s: State, l: nat, eof: bool, c: ConnId, written: bool)
    requires Enabled(s, RunCallback(l, eof), written) && s.loops[l].frame.c == c && s.conns[c].loop == l
    requires !One.Closes(s.loops[l].frame.rest[0], eof)
    ensures Follows(ViewOf(s, c), ViewOf(Effect(s, RunCallback(l, eof), written), c), written)
  {
    var v, s' := ViewOf(s, c), Effect(s, RunCallback(l, eof), written);
    ReframedView(s, s', c, Handling(c, s.loops[l].frame.rest[1..]), s.loops[l].active);
    assert One.Enabled(v, One.Called(eof), written) && ViewOf(s', c) == One.Apply(v, One.Called(eof), written);
  }

  lemma RunCallbackAside(s: State, l: nat, eof: bool, c: ConnId, written: bool)
    requires Enabled(s, RunCallback(l, eof), written) && Known(s, c) && s.loops[l].frame.c != c
    ensures Follows(ViewOf(s, c), ViewOf(Effect(s, RunCallback(l, eof), written), c), written)
  {
    SameView(s, Effect(s, RunCallback(l, eof), written), c, written);
  }

  lemma EndHandleFollows(s: State, l: nat, c: ConnId, written: bool)
    requires Enabled(s, EndHandle(l), written) && Known(s, c)
    requires s.loops[l].frame.c == c ==> s.conns[c].loop == l
    ensures Follows(ViewOf(s, c), ViewOf(Effect(s, EndHandle(l), written), c), written)
  {
    var v, s' := ViewOf(s, c), Effect(s, EndHandle(l), written);
    if s.loops[l].frame.c == c {
      ReframedView(s, s', c, Idle, s.loops[l].active);
      assert One.Enabled(v, One.HandleDone, written) && ViewOf(s', c) == One.Apply(v, One.HandleDone, written);
    } else {
      SameView(s, s', c, written);
    }
  }

  lemma EndDispatchFollows(s: State, l: nat, c: ConnId, written: bool)
    requires Enabled(s, EndDispatch(l), written) && Known(s, c)
    ensures Follows(ViewOf(s, c), ViewOf(Effect(s, EndDispatch(l), written), c), written)
  {
    var v, s' := ViewOf(s, c), Effect(s, EndDispatch(l), written);
    if l == s.conns[c].loop {
      assert One.Enabled(v, One.DispatchDone, written) && ViewOf(s', c) == One.Apply(v, One.DispatchDone, written);
    } else {
      SameView(s, s', c, written);
    }
  }

  lemma EndFunctorsFollows(s: State, l: nat, c: ConnId, written: bool)
    requires Enabled(s, EndFunctors(l), written) && Known(s, c) && s.conns[c].loop == l
    ensures Follows(ViewOf(s, c), ViewOf(Effect(s, EndFunctors(l), written), c), written)
  {
    var v, s' := ViewOf(s, c), Effect(s, EndFunctors(l), written);
    assert One.Enabled(v, One.BatchDone, written) && ViewOf(s', c) == One.Apply(v, One.BatchDone, written);
  }

  lemma EndFunctorsAside(s: State, l: nat, c: ConnId, written: bool)
    requires Enabled(s, EndFunctors(l), written) && Known(s, c) && s.conns[c].loop != l
    ensures Follows(ViewOf(s, c), ViewOf(Effect(s, EndFunctors(l), written), c), written)
  {
    var v, s' := ViewOf(s, c), Effect(s, EndFunctors(l), written);
    if l == 0 {
      assert One.Enabled(v, One.AwayBatchDone, written) && ViewOf(s', c) == One.Apply(v, One.AwayBatchDone, written);
    } else {
      SameView(s, s', c, written);
    }
  }

  /** A job queued for another connection is not seen. */
  lemma PushAside(s: State, l: nat, job: Job, c: ConnId)
    requires |s.loops| > 0 && Known(s, c) && l < |s.loops| && job.c != c
    ensures ViewOf(Push(s, l, job), c) == ViewOf(s, c)
  {
    var loop := s.loops[l];
    CallsPush(loop.jobs, job, c);
    var loop' := loop.(jobs := loop.jobs + [job]);
    assert SameHome(loop, loop', c) && SameMain(loop, loop', c);
    SameView(s, Push(s, l, job), c, true);
  }

  lemma PushCall(s: State, job: Job, c: ConnId)
    requires |s.loops| > 0 && Known(s, c) && job.c == c && !job.Remove?
    ensures ViewOf(Push(s, s.conns[c].loop, job), c)
            == ViewOf(s, c).(calls := ViewOf(s, c).calls + CallOf(job, c))
  {
    CallsPush(s.loops[s.conns[c].loop].jobs, job, c);
  }

  lemma PushRemove(s: State, c: ConnId)
    requires |s.loops| > 0 && Known(s, c)
    ensures ViewOf(Push(s, 0, Remove(c)), c) == ViewOf(s, c).(removals := ViewOf(s, c).removals + 1)
  {
    var main := s.loops[0];
    var main' := main.(jobs := main.jobs + [Remove(c)]);
    CallsPush(main.jobs, Remove(c), c);
    assert CallOf(Remove(c), c) == [];
    assert SameHome(main, main', c);
    assert Push(s, 0, Remove(c)).loops[s.conns[c].loop]
           == if s.conns[c].loop == 0 then main' else s.loops[s.conns[c].loop];
  }

  /** The server's thread leaves newConnection or removeConnectionInLoop. */
  lemma ReturnedView(s: State, c: ConnId)
    requires |s.loops| > 0 && Known(s, c) && (s.loops[0].frame.Creating? || s.loops[0].frame.Removing?)
    ensures ViewOf(SetFrame(s, 0, Idle), c) == ViewOf(s, c).(creating := false, removing := false)
  {
  }

  lemma PostHereFollows(s: State, c: ConnId, written: bool)
    requires Enabled(s, PostEstablish, written) && s.loops[0].frame.c == c && s.conns[c].loop == 0
    ensures Follows(ViewOf(s, c), ViewOf(Effect(s, PostEstablish, written), c), written)
  {
    var v, s' := ViewOf(s, c), Effect(s, PostEstablish, written);
    ReturnedView(s, c);
    assert One.Enabled(v, One.Posted, written) && ViewOf(s', c) == One.Apply(v, One.Posted, written);
  }

  lemma PostAwayFollows(s: State, c: ConnId, written: bool)
    requires Enabled(s, PostEstablish, written) && s.loops[0].frame.c == c && s.conns[c].loop != 0
    ensures Follows(ViewOf(s, c), ViewOf(Effect(s, PostEstablish, written), c), written)
  {
    var v, s' := ViewOf(s, c), Effect(s, PostEstablish, written);
    ReturnedView(s, c);
    PushCall(SetFrame(s, 0, Idle), Establish(c), c);
    assert One.Enabled(v, One.Posted, written) && ViewOf(s', c) == One.Apply(v, One.Posted, written);
  }

  lemma PostEstablishAside(s: State, c: ConnId, written: bool)
    requires Enabled(s, PostEstablish, written) && Known(s, c) && s.loops[0].frame.c != c
    ensures Follows(ViewOf(s, c), ViewOf(Effect(s, PostEstablish, written), c), written)
  {
    var d, s1 := s.loops[0].frame.c, SetFrame(s, 0, Idle);
    ReturnedView(s, c);
    if s.conns[d].loop != 0 {
      PushAside(s1, s.conns[d].loop, Establish(d), c);
    }
    Unseen(ViewOf(s, c), written);
  }

  lemma CloseAwayFollows(s: State, l: nat, c: ConnId, written: bool)
    requires Enabled(s, ClosePost(l), written) && s.loops[l].frame.c == c && s.conns[c].loop == l && l != 0
    ensures Follows(ViewOf(s, c), ViewOf(Effect(s, ClosePost(l), written), c), written)
  {
    var v, s' := ViewOf(s, c), Effect(s, ClosePost(l), written);
    var frame := Handling(c, s.loops[l].frame.rest);
    ReframedView(s, SetFrame(s, l, frame), c, frame, s.loops[l].active);
    if !s.server.Gone? {
      PushRemove(SetFrame(s, l, frame), c);
    }
    assert One.Enabled(v, One.CloseDone, written) && ViewOf(s', c) == One.Apply(v, One.CloseDone, written);
  }

  lemma CloseHereFollows(s: State, c: ConnId)
    requires Enabled(s, ClosePost(0), false) && s.loops[0].frame.c == c && s.conns[c].loop == 0
    ensures Follows(ViewOf(s, c), ViewOf(Effect(s, ClosePost(0), false), c), false)
  {
    var v, s' := ViewOf(s, c), Effect(s, ClosePost(0), false);
    var frame := Handling(c, s.loops[0].frame.rest);
    ReframedView(s, SetFrame(s, 0, frame), c, frame, s.loops[0].active);
    if !s.server.Gone? {
      PushCall(SetFrame(s, 0, frame).(mapped := s.mapped - {c}), Destroy(c), c);
    }
    assert One.Enabled(v, One.CloseDone, false) && ViewOf(s', c) == One.Apply(v, One.CloseDone, false);
  }

  lemma StickFollows(s: State, c: ConnId)
    requires Enabled(s, ClosePost(0), true) && s.loops[0].frame.c == c && s.conns[c].loop == 0
    ensures Follows(ViewOf(s, c), ViewOf(Effect(s, ClosePost(0), true), c), true)
  {
    var v, s' := ViewOf(s, c), Effect(s, ClosePost(0), true);
    assert One.Enabled(v, One.CloseDone, true) && ViewOf(s', c) == One.Apply(v, One.CloseDone, true);
  }

  lemma ClosePostAside(s: State, l: nat, c: ConnId, written: bool)
    requires Enabled(s, ClosePost(l), written) && Known(s, c) && s.loops[l].frame.c != c
    requires s.conns[s.loops[l].frame.c].loop == l
    ensures Follows(ViewOf(s, c), ViewOf(Effect(s, ClosePost(l), written), c), written)
  {
    var Closing(d, rest) := s.loops[l].frame;
    var s1 := SetFrame(s, l, if written && l == 0 then Stuck(d) else Handling(d, rest));
    SameView(s, s1, c, written);
    assert ViewOf(s1, c) == ViewOf(s, c);
    if !s.server.Gone? {
      if l != 0 {
        PushAside(s1, 0, Remove(d), c);
      } else if !written {
        PushAside(s1.(mapped := s.mapped - {d}), 0, Destroy(d), c);
      }
    }
    Unseen(ViewOf(s, c), written);
  }

  lemma RunJobFollows(s: State, l: nat, c: ConnId, written: bool)
    requires Enabled(s, RunJob(l), written) && s.loops[l].jobs[0].c == c
    requires !s.loops[l].jobs[0].Remove? && s.conns[c].loop == l
    ensures Follows(ViewOf(s, c), ViewOf(Effect(s, RunJob(l), written), c), written)
  {
    var v, s' := ViewOf(s, c), Effect(s, RunJob(l), written);
    CallsPop(s.loops[l].jobs, c);
    assert One.Enabled(v, One.Ran, written) && ViewOf(s', c) == One.Apply(v, One.Ran, written);
  }

  lemma PopRemove(s: State, c: ConnId)
    requires |s.loops| > 0 && Known(s, c) && s.loops[0].jobs != [] && s.loops[0].due > 0
    requires s.loops[0].jobs[0] == Remove(c)
    ensures
      var v := ViewOf(s, c);
      && v.removals > 0
      && ViewOf(PopJob(s, 0), c) == v.(removals := v.removals - 1,
           held := v.held || v.e.loop == 0, away := v.away || v.e.loop != 0)
  {
    CallsPop(s.loops[0].jobs, c);
  }

  lemma RunRemoveFollows(s: State, c: ConnId)
    requires Enabled(s, RunJob(0), false) && s.loops[0].jobs[0] == Remove(c)
    ensures Follows(ViewOf(s, c), ViewOf(Effect(s, RunJob(0), false), c), false)
  {
    var v, s1, s' := ViewOf(s, c), PopJob(s, 0), Effect(s, RunJob(0), false);
    PopRemove(s, c);
    if !s.server.Gone? {
      assert ViewOf(s', c) == ViewOf(s1, c).(mapped := false, removing := true);
    }
    assert One.Enabled(v, One.RemovalRan, false) && ViewOf(s', c) == One.Apply(v, One.RemovalRan, false);
  }

  lemma RunAndStickFollows(s: State, c: ConnId)
    requires Enabled(s, RunJob(0), true) && s.loops[0].jobs[0] == Remove(c)
    ensures Follows(ViewOf(s, c), ViewOf(Effect(s, RunJob(0), true), c), true)
  {
    var v, s1, s' := ViewOf(s, c), PopJob(s, 0), Effect(s, RunJob(0), true);
    PopRemove(s, c);
    assert ViewOf(s', c) == ViewOf(s1, c).(stuck := true);
    assert One.Enabled(v, One.RemovalRan, true) && ViewOf(s', c) == One.Apply(v, One.RemovalRan, true);
  }

  lemma PopAside(s: State, l: nat, c: ConnId)
    requires |s.loops| > 0 && Known(s, c) && l < |s.loops| && s.loops[l].jobs != [] && s.loops[l].due > 0
    requires s.loops[l].jobs[0].c != c
    ensures ViewOf(PopJob(s, l), c) == ViewOf(s, c)
  {
    var loop, loop' := s.loops[l], PopJob(s, l).loops[l];
    CallsPop(loop.jobs, c);
    assert SameHome(loop, loop', c) && SameMain(loop, loop', c);
    SameView(s, PopJob(s, l), c, true);
  }

  lemma CallAside(s: State, l: nat, c: ConnId, written: bool)
    requires Enabled(s, RunJob(l), written) && Known(s, c) && s.loops[l].jobs[0].c != c
    requires !s.loops[l].jobs[0].Remove?
    ensures Follows(ViewOf(s, c), ViewOf(Effect(s, RunJob(l), written), c), written)
  {
    PopAside(s, l, c);
    SameView(PopJob(s, l), Effect(s, RunJob(l), written), c, written);
  }

  lemma RemoveAside(s: State, c: ConnId, written: bool)
    requires Enabled(s, RunJob(0), written) && Known(s, c) && s.loops[0].jobs[0].c != c
    requires s.loops[0].jobs[0].Remove?
    ensures Follows(ViewOf(s, c), ViewOf(Effect(s, RunJob(0), written), c), written)
  {
    PopAside(s, 0, c);
    SameView(PopJob(s, 0), Effect(s, RunJob(0), written), c, written);
  }

  lemma FinishRemoveFollows(s: State, c: ConnId, written: bool)
    requires Enabled(s, FinishRemove, written) && s.loops[0].frame.c == c
    ensures Follows(ViewOf(s, c), ViewOf(Effect(s, FinishRemove, written), c), written)
  {
    var v, s' := ViewOf(s, c), Effect(s, FinishRemove, written);
    ReturnedView(s, c);
    PushCall(SetFrame(s, 0, Idle), Destroy(c), c);
    assert One.Enabled(v, One.RemovalDone, written) && ViewOf(s', c) == One.Apply(v, One.RemovalDone, written);
  }

  lemma FinishRemoveAside(s: State, c: ConnId, written: bool)
    requires Enabled(s, FinishRemove, written) && Known(s, c) && s.loops[0].frame.c != c
    ensures Follows(ViewOf(s, c), ViewOf(Effect(s, FinishRemove, written), c), written)
  {
    var d := s.loops[0].frame.c;
    ReturnedView(s, c);
    PushAside(SetFrame(s, 0, Idle), s.conns[d].loop, Destroy(d), c);
    Unseen(ViewOf(s, c), written);
  }

  /** The destructor turns to a connection. */
  lemma DroppingView(s: State, d: ConnId, c: ConnId)
    requires |s.loops| > 0 && Known(s, c) && s.loops[0].frame.Destructing?
    ensures
      var v := ViewOf(s, c);
      ViewOf(SetFrame(s, 0, Dropping(d)).(mapped := s.mapped - {d}), c)
      == if c == d then v.(mapped := false, dropping := true) else v
  {
    var s1 := SetFrame(s, 0, Dropping(d)).(mapped := s.mapped - {d});
    if c != d {
      SameView(s, s1, c, true);
    }
  }

  lemma DropOneFollows(s: State, c: ConnId, written: bool)
    requires Enabled(s, DropOne(c), written) && s.server.Dying? && !s.loops[0].phase.Dispatching?
    ensures Follows(ViewOf(s, c), ViewOf(Effect(s, DropOne(c), written), c), written)
  {
    var v, s' := ViewOf(s, c), Effect(s, DropOne(c), written);
    DroppingView(s, c, c);
    if s.conns[c].loop != 0 {
      PushCall(SetFrame(s, 0, Dropping(c)).(mapped := s.mapped - {c}), Destroy(c), c);
    }
    assert One.Enabled(v, One.Dropped, written) && ViewOf(s', c) == One.Apply(v, One.Dropped, written);
  }

  lemma DropOneAside(s: State, d: ConnId, c: ConnId, written: bool)
    requires Enabled(s, DropOne(d), written) && Known(s, c) && c != d
    ensures Follows(ViewOf(s, c), ViewOf(Effect(s, DropOne(d), written), c), written)
  {
    var s1 := SetFrame(s, 0, Dropping(d)).(mapped := s.mapped - {d});
    DroppingView(s, d, c);
    if s.conns[d].loop != 0 {
      PushAside(s1, s.conns[d].loop, Destroy(d), c);
      Unseen(ViewOf(s, c), written);
    } else {
      SameView(s1, Effect(s, DropOne(d), written), c, written);
    }
  }

  lemma EndDropFollows(s: State, c: ConnId, written: bool)
    requires Enabled(s, EndDrop, written) && Known(s, c)
    ensures Follows(ViewOf(s, c), ViewOf(Effect(s, EndDrop, written), c), written)
  {
    var v, s' := ViewOf(s, c), Effect(s, EndDrop, written);
    if s.loops[0].frame.c == c {
      assert One.Enabled(v, One.DropDone, written) && ViewOf(s', c) == One.Apply(v, One.DropDone, written);
    } else {
      SameView(s, s', c, written);
    }
  }

  lemma BeginDestructFollows(s: State, c: ConnId, written: bool)
    requires Enabled(s, BeginDestruct, written) && Known(s, c)
    ensures Follows(ViewOf(s, c), ViewOf(Effect(s, BeginDestruct, written), c), written)
  {
    var v, s' := ViewOf(s, c), Effect(s, BeginDestruct, written);
    assert One.Enabled(v, One.DestructorBegun, written) && ViewOf(s', c) == One.Apply(v, One.DestructorBegun, written);
  }

  lemma EndDestructFollows(s: State, c: ConnId, written: bool)
    requires Enabled(s, EndDestruct, written) && Known(s, c) && s.server.Dying?
    ensures Follows(ViewOf(s, c), ViewOf(Effect(s, EndDestruct, written), c), written)
  {
    var v, s' := ViewOf(s, c), Effect(s, EndDestruct, written);
    assert One.Enabled(v, One.DestructorEnded, written) && ViewOf(s', c) == One.Apply(v, One.DestructorEnded, written);
  }

  lemma ShareFollows(s: State, tid: nat, c: ConnId, written: bool)
    requires Enabled(s, Share(tid, c), written) && One.Held(ViewOf(s, c))
    ensures Follows(ViewOf(s, c), ViewOf(Effect(s, Share(tid, c), written), c), written)
  {
    var v, s' := ViewOf(s, c), Effect(s, Share(tid, c), written);
    assert OutsideOf(s', c) == OutsideOf(s, c) + {tid};
    assert One.Enabled(v, One.Shared(tid), written) && ViewOf(s', c) == One.Apply(v, One.Shared(tid), written);
  }

  lemma ShareAside(s: State, tid: nat, d: ConnId, c: ConnId, written: bool)
    requires Enabled(s, Share(tid, d), written) && Known(s, c) && c != d
    ensures Follows(ViewOf(s, c), ViewOf(Effect(s, Share(tid, d), written), c), written)
  {
    var s' := Effect(s, Share(tid, d), written);
    assert OutsideOf(s', c) == OutsideOf(s, c);
    SameView(s, s', c, written);
  }

  lemma ReleaseFollows(s: State, tid: nat, c: ConnId, written: bool)
    requires Enabled(s, Release(tid), written) && Known(s, c)
    ensures Follows(ViewOf(s, c), ViewOf(Effect(s, Release(tid), written), c), written)
  {
    var v, s' := ViewOf(s, c), Effect(s, Release(tid), written);
    assert OutsideOf(s', c) == OutsideOf(s, c) - {tid};
    assert One.Enabled(v, One.Released(tid), written) && ViewOf(s', c) == One.Apply(v, One.Released(tid), written);
  }

  lemma ShutSetFollows(s: State, tid: nat, c: ConnId, written: bool)
    requires Enabled(s, ShutSet(tid), written) && Known(s, c)
    requires s.conns[s.outside[tid]].established == 1
    ensures Follows(ViewOf(s, c), ViewOf(Effect(s, ShutSet(tid), written), c), written)
  {
    var v, s' := ViewOf(s, c), Effect(s, ShutSet(tid), written);
    assert s'.outside == s.outside && OutsideOf(s', c) == OutsideOf(s, c);
    if s.outside[tid] == c {
      assert tid in OutsideOf(s, c);
      assert One.Enabled(v, One.ShutStored, written) && ViewOf(s', c) == One.Apply(v, One.ShutStored, written);
    } else {
      SameView(s, s', c, written);
    }
  }

  /** Accept and ShutTest change nothing for a connection that was there before. */
  lemma RestAside(s: State, step: Step, c: ConnId, written: bool)
    requires Enabled(s, step, written) && Known(s, c)
    requires step.Accept? || step.ShutTest?
    ensures Known(Effect(s, step, written), c)
    ensures Follows(ViewOf(s, c), ViewOf(Effect(s, step, written), c), written)
  {
    SameView(s, Effect(s, step, written), c, written);
  }

  /** Where a step finds what it acts on. */
  predicate Placed(s: State, step: Step, written: bool)
    requires Enabled(s, step, written)
  {
    match step
    case Handle(l) => s.conns[s.loops[l].active[0].c].loop == l && One.Held(ViewOf(s, s.loops[l].active[0].c))
    case RunCallback(l, _) => s.conns[s.loops[l].frame.c].loop == l
    case ClosePost(l) => s.conns[s.loops[l].frame.c].loop == l
    case EndHandle(l) => Known(s, s.loops[l].frame.c) && s.conns[s.loops[l].frame.c].loop == l
    case RunJob(l) =>
      var job := s.loops[l].jobs[0];
      if job.Remove? then l == 0 else s.conns[job.c].loop == l
    case DropOne(_) => s.server.Dying? && !s.loops[0].phase.Dispatching?
    case EndDestruct => s.server.Dying?
    case Share(_, c) => One.Held(ViewOf(s, c))
    case ShutSet(tid) => s.conns[s.outside[tid]].established == 1
    case _ => true
  }

  lemma DispatchFollows(s: State, step: Step, c: ConnId, written: bool)
    requires Enabled(s, step, written) && Known(s, c) && Placed(s, step, written) && OnDispatch(step)
    requires Known(Effect(s, step, written), c)
    ensures Follows(ViewOf(s, c), ViewOf(Effect(s, step, written), c), written)
  {
    match step
    case Handle(l) =>
      if s.loops[l].active[0].c == c { HandleFollows(s, l, c, written); } else { HandleAside(s, l, c, written); }
    case RunCallback(l, eof) =>
      if s.loops[l].frame.c != c { RunCallbackAside(s, l, eof, c, written); }
      else if One.Closes(s.loops[l].frame.rest[0], eof) { ClosingFollows(s, l, eof, c, written); }
      else { PassingFollows(s, l, eof, c, written); }
    case ClosePost(l) =>
      if s.loops[l].frame.c != c { ClosePostAside(s, l, c, written); }
      else if l != 0 { CloseAwayFollows(s, l, c, written); }
      else if written { StickFollows(s, c); }
      else { CloseHereFollows(s, c); }
    case EndHandle(l) => EndHandleFollows(s, l, c, written);
  }

  lemma PhaseFollows(s: State, step: Step, c: ConnId, written: bool)
    requires Enabled(s, step, written) && Known(s, c) && Placed(s, step, written) && OnPhase(step)
    requires Known(Effect(s, step, written), c)
    ensures Follows(ViewOf(s, c), ViewOf(Effect(s, step, written), c), written)
  {
    match step
    case Poll(l, active) =>
      if l == s.conns[c].loop { PollFollows(s, l, active, c, written); } else { PollAside(s, l, active, c, written); }
    case EndDispatch(l) => EndDispatchFollows(s, l, c, written);
    case RunJob(l) => JobFollows(s, l, c, written);
    case EndFunctors(l) =>
      if s.conns[c].loop == l { EndFunctorsFollows(s, l, c, written); } else { EndFunctorsAside(s, l, c, written); }
  }

  predicate OnServer(step: Step) {
    || step.PostEstablish? || step.FinishRemove?
    || step.BeginDestruct? || step.DropOne? || step.EndDrop? || step.EndDestruct?
  }

  lemma ServerFollows(s: State, step: Step, c: ConnId, written: bool)
    requires Enabled(s, step, written) && Known(s, c) && Placed(s, step, written) && OnServer(step)
    requires Known(Effect(s, step, written), c)
    ensures Follows(ViewOf(s, c), ViewOf(Effect(s, step, written), c), written)
  {
    match step
    case PostEstablish =>
      if s.loops[0].frame.c != c { PostEstablishAside(s, c, written); }
      else if s.conns[c].loop == 0 { PostHereFollows(s, c, written); }
      else { PostAwayFollows(s, c, written); }
    case FinishRemove =>
      if s.loops[0].frame.c == c { FinishRemoveFollows(s, c, written); } else { FinishRemoveAside(s, c, written); }
    case BeginDestruct => BeginDestructFollows(s, c, written);
    case DropOne(d) =>
      if d == c { DropOneFollows(s, c, written); } else { DropOneAside(s, d, c, written); }
    case EndDrop => EndDropFollows(s, c, written);
    case EndDestruct => EndDestructFollows(s, c, written);
  }

  lemma RestFollows(s: State, step: Step, c: ConnId, written: bool)
    requires Enabled(s, step, written) && Known(s, c) && Placed(s, step, written)
    requires !OnDispatch(step) && !OnPhase(step) && !OnServer(step)
    requires Known(Effect(s, step, written), c)
    ensures Follows(ViewOf(s, c), ViewOf(Effect(s, step, written), c), written)
  {
    match step
    case Share(tid, d) =>
      if d == c { ShareFollows(s, tid, c, written); } else { ShareAside(s, tid, d, c, written); }
    case Release(tid) => ReleaseFollows(s, tid, c, written);
    case ShutSet(tid) => ShutSetFollows(s, tid, c, written);
    case _ => RestAside(s, step, c, written);
  }

  /** Every step is one event for every connection that was there before it. */
  lemma StepFollows(s: State, step: Step, c: ConnId, written: bool)
    requires Enabled(s, step, written) && Known(s, c) && Placed(s, step, written)
    requires Known(Effect(s, step, written), c)
    ensures Follows(ViewOf(s, c), ViewOf(Effect(s, step, written), c), written)
  {
    if OnDispatch(step) {
      DispatchFollows(s, step, c, written);
    } else if OnPhase(step) {
      PhaseFollows(s, step, c, written);
    } else if OnServer(step) {
      ServerFollows(s, step, c, written);
    } else {
      RestFollows(s, step, c, written);
    }
  }

  lemma JobFollows(s: State, l: nat, c: ConnId, written: bool)
    requires Enabled(s, RunJob(l), written) && Known(s, c) && Placed(s, RunJob(l), written)
    requires Known(Effect(s, RunJob(l), written), c)
    ensures Follows(ViewOf(s, c), ViewOf(Effect(s, RunJob(l), written), c), written)
  {
    var job := s.loops[l].jobs[0];
    if job.c != c {
      if job.Remove? { RemoveAside(s, c, written); } else { CallAside(s, l, c, written); }
    } else if job.Remove? {
      if written { RunAndStickFollows(s, c); } else { RunRemoveFollows(s, c); }
    } else {
      RunJobFollows(s, l, c, written);
    }
  }

  // ------------------------------------------------------------------ invariant

  ghost predicate ConnInv(s: State, c: ConnId, written: bool)
    requires |s.loops| > 0
  {
    Known(s, c) && One.Inv(ViewOf(s, c), written)
  }

  ghost predicate Inv(s: State, written: bool) {
    && |s.loops| > 0
    && (forall l :: 0 <= l < |s.loops| ==> LoopInv(s, l))
    && (forall c :: c in s.mapped ==> c in s.conns)
    && (forall c :: c in s.conns ==> ConnInv(s, c, written))
    && OutsideInv(s)
    && DyingInv(s)
  }

  predicate DyingInv(s: State)
    requires |s.loops| > 0
  {
    s.loops[0].frame.Destructing? || s.loops[0].frame.Dropping? ==> s.server.Dying?
  }

  lemma InvPlaces(s: State, step: Step, written: bool)
    requires Inv(s, written) && Enabled(s, step, written)
    ensures Placed(s, step, written)
  {
    assert LoopInv(s, 0);
    if step.Handle? {
      assert LoopInv(s, step.l);
      AliveIsHeld(s, s.loops[step.l].active[0].c);
    } else if step.Share? {
      AliveIsHeld(s, step.c);
    }
    if Actor(step) < |s.loops| {
      assert LoopInv(s, Actor(step));
      LoopPlaces(s, step, written);
    }
  }

  lemma LoopPlaces(s: State, step: Step, written: bool)
    requires Enabled(s, step, written) && Actor(step) < |s.loops| && LoopInv(s, Actor(step)) && LoopInv(s, 0)
    requires DyingInv(s)
    requires step.ShutSet? ==> s.conns[s.outside[step.tid]].established == 1
    requires step.Handle? ==> One.Held(ViewOf(s, s.loops[step.l].active[0].c))
    requires step.Share? ==> One.Held(ViewOf(s, step.c))
    ensures Placed(s, step, written)
  {
    var loop := s.loops[Actor(step)];
    if step.Handle? {
      assert loop.active[0] in loop.active;
    } else if step.RunJob? {
      assert loop.jobs[0] in loop.jobs;
    }
  }

  /** In well-formed loops, only its own loop and loop 0 can hold a connection. */
  lemma AliveIsHeld(s: State, c: ConnId)
    requires |s.loops| > 0 && Known(s, c)
    requires forall l :: 0 <= l < |s.loops| ==> LoopInv(s, l)
    ensures Alive(s, c) <==> One.Held(ViewOf(s, c))
  {
    var home, main := s.loops[s.conns[c].loop], s.loops[0];
    CallsPresent(home.jobs, c);
    assert Remove(c) in main.jobs <==> multiset(main.jobs)[Remove(c)] > 0;
    HeldElsewhere(s, c);
  }

  lemma HeldElsewhere(s: State, c: ConnId)
    requires |s.loops| > 0 && Known(s, c)
    requires forall l :: 0 <= l < |s.loops| ==> LoopInv(s, l)
    ensures
      var home, main := s.loops[s.conns[c].loop], s.loops[0];
      (exists l :: 0 <= l < |s.loops| && Holds(s.loops[l], c)) <==>
      (|| Establish(c) in home.jobs || Destroy(c) in home.jobs || Remove(c) in main.jobs
       || c in home.held || c in main.held
       || !ActivityOf(home.frame, c).Resting? || main.frame == Creating(c) || main.frame == Removing(c)
       || main.frame == Dropping(c) || main.frame == Stuck(c))
  {
    var home, main := s.loops[s.conns[c].loop], s.loops[0];
    assert LoopInv(s, 0) && LoopInv(s, s.conns[c].loop);
    forall l | 0 <= l < |s.loops| && Holds(s.loops[l], c)
      ensures Holds(home, c) || Holds(main, c)
    {
      assert LoopInv(s, l);
    }
  }

  lemma CloseFreedKeepsLoop(s: State, l: nat)
    requires l < |s.loops| && LoopInv(s, l)
    ensures LoopInv(CloseFreed(s), l)
  {
    SameLoopKept(s, CloseFreed(s), l);
  }

  lemma CloseFreedSettles(s: State, c: ConnId)
    requires |s.loops| > 0 && Known(s, c)
    requires forall l :: 0 <= l < |s.loops| ==> LoopInv(s, l)
    ensures Known(CloseFreed(s), c) && ViewOf(CloseFreed(s), c) == One.Settle(ViewOf(s, c))
  {
    AliveIsHeld(s, c);
  }

  lemma LoopsKept(s: State, step: Step, written: bool)
    requires Inv(s, written) && Enabled(s, step, written)
    ensures
      var s' := Effect(s, step, written);
      |s'.loops| == |s.loops| && forall l :: 0 <= l < |s'.loops| ==> LoopInv(s', l)
  {
    EffectKeepsHomes(s, step, written);
    forall l | 0 <= l < |s.loops| ensures LoopInv(Effect(s, step, written), l) {
      assert LoopInv(s, l) && LoopInv(s, 0);
      assert Actor(step) < |s.loops| ==> LoopInv(s, Actor(step));
      LoopKept(s, step, l, written);
    }
  }

  lemma {:induction false} NoCalls(jobs: seq<Job>, c: ConnId)
    requires forall job :: job in jobs ==> job.c != c
    ensures CallsOf(jobs, c) == [] && multiset(jobs)[Remove(c)] == 0
  {
    if jobs != [] {
      assert jobs == [jobs[0]] + jobs[1..];
      NoCalls(jobs[1..], c);
    }
  }

  lemma {:induction false} NoReports(active: seq<Ready>, c: ConnId)
    requires forall r :: r in active ==> r.c != c
    ensures ReportsOf(active, c) == []
  {
    if active != [] {
      assert active[0] in active;
      NoReports(active[1..], c);
    }
  }

  /** A loop that knows only known connections has nothing of `c`. */
  ghost predicate Ignores(loop: Loop, c: ConnId) {
    && CallsOf(loop.jobs, c) == [] && multiset(loop.jobs)[Remove(c)] == 0
    && ReportsOf(loop.active, c) == []
    && c !in loop.held
    && ActivityOf(loop.frame, c).Resting?
  }

  lemma UnknownIsIgnored(s: State, l: nat, c: ConnId)
    requires l < |s.loops| && LoopInv(s, l) && c !in s.conns
    ensures Ignores(s.loops[l], c)
  {
    NoCalls(s.loops[l].jobs, c);
    NoReports(s.loops[l].active, c);
  }

  lemma NewView(s: State, c: ConnId, on: nat, written: bool)
    requires Enabled(s, Accept(c, on), written) && Ignores(s.loops[on], c) && Ignores(s.loops[0], c)
    requires OutsideOf(s, c) == {}
    ensures
      var s' := Effect(s, Accept(c, on), written);
      Known(s', c) && ViewOf(s', c) == One.Accepted(on, s'.loops[on].phase)
  {
    assert OutsideOf(Effect(s, Accept(c, on), written), c) == OutsideOf(s, c);
  }

  lemma FollowingKeepsInv(v: One.View, v': One.View, written: bool)
    requires One.Inv(v, written) && Follows(v, v', written)
    ensures One.Inv(One.Settle(v'), written)
  {
    var event :| One.Enabled(v, event, written) && v' == One.Apply(v, event, written);
    One.EventKeepsInv(v, event, written);
  }

  lemma OldConnKept(s: State, step: Step, c: ConnId, written: bool)
    requires Enabled(s, step, written) && ConnInv(s, c, written) && Placed(s, step, written)
    ensures
      var s' := Effect(s, step, written);
      |s'.loops| > 0 && Known(s', c) && One.Inv(One.Settle(ViewOf(s', c)), written)
  {
    EffectKeepsHomes(s, step, written);
    StepFollows(s, step, c, written);
    FollowingKeepsInv(ViewOf(s, c), ViewOf(Effect(s, step, written), c), written);
  }

  lemma NewConnKept(s: State, c: ConnId, on: nat, written: bool)
    requires Enabled(s, Accept(c, on), written) && LoopInv(s, on) && LoopInv(s, 0) && OutsideOf(s, c) == {}
    ensures
      var s' := Effect(s, Accept(c, on), written);
      |s'.loops| > 0 && Known(s', c) && One.Inv(One.Settle(ViewOf(s', c)), written)
  {
    var s' := Effect(s, Accept(c, on), written);
    UnknownIsIgnored(s, on, c);
    UnknownIsIgnored(s, 0, c);
    NewView(s, c, on, written);
    One.AcceptedHasInv(on, s'.loops[on].phase, written);
  }

  lemma NewIsAccepted(s: State, step: Step, c: ConnId, written: bool)
    requires Enabled(s, step, written) && c in Effect(s, step, written).conns && c !in s.conns
    ensures step.Accept? && step.c == c
  {
  }

  lemma ConnKept(s: State, step: Step, c: ConnId, written: bool)
    requires Inv(s, written) && Enabled(s, step, written) && c in Effect(s, step, written).conns
    ensures
      var s' := Effect(s, step, written);
      |s'.loops| > 0 && Known(s', c) && One.Inv(One.Settle(ViewOf(s', c)), written)
  {
    if c in s.conns {
      assert ConnInv(s, c, written);
      InvPlaces(s, step, written);
      OldConnKept(s, step, c, written);
    } else {
      NewIsAccepted(s, step, c, written);
      assert LoopInv(s, step.on) && LoopInv(s, 0);
      assert OutsideOf(s, c) == {};
      NewConnKept(s, c, step.on, written);
    }
  }

  /** User code keeps pointers to known connections, and shuts down established ones. */
  ghost predicate OutsideInv(s: State) {
    && (forall tid :: tid in s.outside ==> Known(s, s.outside[tid]))
    && (forall tid :: tid in s.shutting ==> tid in s.outside && s.conns[s.outside[tid]].established == 1)
  }

  predicate Grows(s: State, s': State, c: ConnId)
    requires c in s.conns
  {
    && c in s'.conns
    && s'.conns[c].established >= s.conns[c].established
    && s'.conns[c].destroyed >= s.conns[c].destroyed
  }

  lemma DispatchGrows(s: State, step: Step, c: ConnId, written: bool)
    requires Enabled(s, step, written) && c in s.conns && OnDispatch(step)
    ensures Grows(s, Effect(s, step, written), c)
  {
  }

  lemma PhaseGrows(s: State, step: Step, c: ConnId, written: bool)
    requires Enabled(s, step, written) && c in s.conns && OnPhase(step)
    ensures Grows(s, Effect(s, step, written), c)
  {
  }

  lemma EstablishedStays(s: State, step: Step, c: ConnId, written: bool)
    requires Enabled(s, step, written) && c in s.conns
    ensures Grows(s, Effect(s, step, written), c)
  {
    if OnDispatch(step) {
      DispatchGrows(s, step, c, written);
    } else if OnPhase(step) {
      PhaseGrows(s, step, c, written);
    }
  }

  lemma OutsideFrom(s: State, step: Step, tid: nat, written: bool)
    requires Enabled(s, step, written)
    ensures
      var s' := Effect(s, step, written);
      && (tid in s'.outside ==> (tid in s.outside && s.outside[tid] == s'.outside[tid])
                                || step == Share(tid, s'.outside[tid]))
      && (tid in s'.shutting ==> tid in s.shutting || step == ShutTest(tid))
  {
  }

  lemma OutsideLeaves(s: State, step: Step, tid: nat, written: bool)
    requires Enabled(s, step, written) && tid in s.outside && (tid in s.shutting || step == ShutTest(tid))
    ensures
      var s' := Effect(s, step, written);
      tid in s'.outside && s'.outside[tid] == s.outside[tid]
  {
  }

  lemma MappedKept(s: State, step: Step, written: bool)
    requires Enabled(s, step, written) && forall c :: c in s.mapped ==> c in s.conns
    ensures forall c :: c in Effect(s, step, written).mapped ==> c in Effect(s, step, written).conns
  {
  }

  lemma DyingKept(s: State, step: Step, written: bool)
    requires Enabled(s, step, written) && DyingInv(s)
    ensures |Effect(s, step, written).loops| > 0 && DyingInv(Effect(s, step, written))
  {
  }

  lemma KeptIsKnown(s: State, step: Step, tid: nat, written: bool)
    requires OutsideInv(s) && Enabled(s, step, written) && tid in Effect(s, step, written).outside
    ensures Known(Effect(s, step, written), Effect(s, step, written).outside[tid])
  {
    OutsideFrom(s, step, tid, written);
    EffectKeepsHomes(s, step, written);
  }

  lemma ConnectedIsEstablished(s: State, c: ConnId, written: bool)
    requires |s.loops| > 0 && ConnInv(s, c, written) && s.conns[c].conn.state.Connected?
    ensures s.conns[c].established == 1
  {
    assert One.OrderInv(ViewOf(s, c));
  }

  lemma ShuttingWasEstablished(s: State, step: Step, tid: nat, written: bool)
    requires Inv(s, written) && Enabled(s, step, written) && tid in Effect(s, step, written).shutting
    ensures tid in s.outside && Known(s, s.outside[tid]) && s.conns[s.outside[tid]].established == 1
    ensures tid in s.shutting || step == ShutTest(tid)
  {
    OutsideFrom(s, step, tid, written);
    if tid !in s.shutting {
      ConnectedIsEstablished(s, s.outside[tid], written);
    }
  }

  lemma ShuttingKept(s: State, step: Step, tid: nat, written: bool)
    requires Inv(s, written) && Enabled(s, step, written) && tid in Effect(s, step, written).shutting
    ensures
      var s' := Effect(s, step, written);
      tid in s'.outside && s'.outside[tid] in s'.conns && s'.conns[s'.outside[tid]].established == 1
  {
    ShuttingWasEstablished(s, step, tid, written);
    OutsideLeaves(s, step, tid, written);
    EstablishedStays(s, step, s.outside[tid], written);
    ConnKept(s, step, s.outside[tid], written);
  }

  /** The invariant of the state before anything is freed. */
  ghost predicate EffectInv(s: State, written: bool) {
    && |s.loops| > 0
    && (forall l :: 0 <= l < |s.loops| ==> LoopInv(s, l))
    && (forall c :: c in s.mapped ==> c in s.conns)
    && (forall c :: c in s.conns ==> Known(s, c) && One.Inv(One.Settle(ViewOf(s, c)), written))
    && OutsideInv(s)
    && DyingInv(s)
  }

  lemma EffectHasInv(s: State, step: Step, written: bool)
    requires Inv(s, written) && Enabled(s, step, written)
    ensures EffectInv(Effect(s, step, written), written)
  {
    var s' := Effect(s, step, written);
    LoopsKept(s, step, written);
    MappedKept(s, step, written);
    DyingKept(s, step, written);
    forall c | c in s'.conns ensures Known(s', c) && One.Inv(One.Settle(ViewOf(s', c)), written) {
      ConnKept(s, step, c, written);
    }
    forall tid | tid in s'.outside ensures Known(s', s'.outside[tid]) {
      KeptIsKnown(s, step, tid, written);
    }
    forall tid | tid in s'.shutting
      ensures tid in s'.outside && s'.conns[s'.outside[tid]].established == 1
    {
      ShuttingKept(s, step, tid, written);
    }
  }

  lemma CloseFreedKeepsConn(s: State, c: ConnId, written: bool)
    requires |s.loops| > 0 && Known(s, c) && One.Inv(One.Settle(ViewOf(s, c)), written)
    requires forall l :: 0 <= l < |s.loops| ==> LoopInv(s, l)
    ensures ConnInv(CloseFreed(s), c, written)
  {
    CloseFreedSettles(s, c);
  }

  lemma CloseFreedKeepsOutside(s: State)
    requires OutsideInv(s)
    ensures OutsideInv(CloseFreed(s))
  {
  }

  lemma CloseFreedHasInv(s: State, written: bool)
    requires EffectInv(s, written)
    ensures Inv(CloseFreed(s), written)
  {
    var s' := CloseFreed(s);
    forall l | 0 <= l < |s'.loops| ensures LoopInv(s', l) {
      CloseFreedKeepsLoop(s, l);
    }
    forall c | c in s'.conns ensures ConnInv(s', c, written) {
      assert c in s.conns && Known(s, c) && One.Inv(One.Settle(ViewOf(s, c)), written);
      CloseFreedKeepsConn(s, c, written);
    }
    CloseFreedKeepsOutside(s);
  }

  lemma {:induction false} RunKeepsInv(ss: seq<State>, written: bool)
    requires Run(ss, written)
    ensures Inv(ss[|ss| - 1], written)
  {
    if |ss| > 1 {
      var front := ss[..|ss| - 1];
      RunFront(ss, written);
      RunKeepsInv(front, written);
      var s, s' := ss[|ss| - 2], ss[|ss| - 1];
      assert Next(s, s', written);
      var step :| Enabled(s, step, written) && s' == Apply(s, step, written);
      EffectHasInv(s, step, written);
      CloseFreedHasInv(Effect(s, step, written), written);
    }
  }

  /** One more step of a run. */
  lemma Extend(ss: seq<State>, step: Step, written: bool) returns (ss': seq<State>)
    requires Run(ss, written) && Enabled(ss[|ss| - 1], step, written)
    ensures Run(ss', written) && ss' == ss + [Apply(ss[|ss| - 1], step, written)]
  {
    ss' := ss + [Apply(ss[|ss| - 1], step, written)];
    forall i | 0 < i < |ss'| ensures StepAt(ss', i, written) {
      if i < |ss| { assert StepAt(ss, i, written) && ss'[i - 1] == ss[i - 1] && ss'[i] == ss[i]; }
    }
  }
}
