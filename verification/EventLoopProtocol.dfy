/**
 The cross-thread functor queue and wake-up protocol of `EventLoop`
 (Netmux/reactor/EventLoop.cc), as a state machine whose steps interleave the
 loop thread with any number of foreign threads.

 Each step is one access to shared state: an atomic flag, the eventfd counter, or
 one critical section of `mutex_`.  The poll timeout is absent: `epoll_wait` returns
 only when some descriptor is ready.
 */
module EventLoopProtocol {

  /** A functor, by name; what it does is given by a `Program`. */
  type TaskId = nat

  /** Who called `queueInLoop`. */
  datatype Caller = LoopThread | Foreign(tid: nat)

  datatype Entry = Entry(from: Caller, task: TaskId)

  /** What a handler or a functor does on the loop thread, one loop call at a time. */
  datatype Action =
    | Queue(task: TaskId)   // queueInLoop
    | Post(task: TaskId)    // postInLoop, which on the loop thread is a plain call
    | Quit
    | Local                 // anything that does not touch the loop

  datatype Handler = WakeupRead | User(body: seq<Action>)

  type Program = TaskId -> seq<Action>

  datatype LoopPc =
    | Starting                            // before line 52
    | CheckQuit                           // line 54
    | Polling                             // lines 55-57
    | Dispatching(handlers: seq<Handler>) // lines 58-60
    | Swapping                            // between lines 129 and 132
    | Running(rest: seq<Entry>)           // lines 134-136
    | Exited

  datatype State = State(
    pc: LoopPc,
    todo: seq<Action>,     // what is left of the handler or functor being executed
    inQueue: bool,         // the loop thread is between lines 108 and 109
    quit: bool,
    calling: bool,         // callingPendingFunctors_
    efd: nat,              // the eventfd counter
    pending: seq<Entry>,   // pendingFunctors_
    owing: set<nat>,       // foreign threads that have pushed or set quit_, and not yet written
    // history
    queued: seq<Entry>,    // every queueInLoop call, in lock order
    executed: seq<Entry>,  // every functor started, in order
    preloop: seq<Entry>,   // what the loop thread queued before loop()
    swaps: nat,            // how often line 132 has run
    quits: nat             // how many quit() stores came after line 52
  )

  /** A write that would overflow the counter fails, the descriptor being non-blocking. */
  const EVENTFD_MAX: nat := 0xFFFF_FFFF_FFFF_FFFE

  function Written(efd: nat): nat {
    if efd < EVENTFD_MAX then efd + 1 else efd
  }

  function Start(): State {
    State(Starting, [], false, false, false, 0, [], {}, [], [], [], 0, 0)
  }

  datatype Step =
    | ForeignPush(tid: nat, task: TaskId)   // line 107 on another thread
    | ForeignQuit(tid: nat)                 // line 68 on another thread
    | ForeignWake(tid: nat)                 // line 76 on another thread
    | PreLoop(work: seq<Action>)            // what the loop thread does before loop()
    | StartLoop                             // lines 51-52
    | TestQuit                              // line 54
    | PollReturn(ready: seq<Handler>)       // line 57
    | NextHandler                           // lines 58-59
    | RaiseCalling                          // line 129
    | Swap                                  // line 132
    | NextFunctor                           // lines 134-135
    | LowerCalling                          // line 137
    | Act                                   // one action of a handler or functor
    | FinishQueue                           // lines 109-111 on the loop thread

  predicate ByLoop(step: Step) {
    !step.ForeignPush? && !step.ForeignQuit? && !step.ForeignWake?
  }

  predicate Busy(s: State) {
    s.todo != [] || s.inQueue
  }

  predicate Enabled(s: State, step: Step) {
    match step
    case ForeignPush(tid, _) => tid !in s.owing
    case ForeignQuit(tid) => tid !in s.owing
    case ForeignWake(tid) => tid in s.owing
    case PreLoop(_) => s.pc.Starting? && !Busy(s)
    case StartLoop => s.pc.Starting? && !Busy(s)
    case TestQuit => s.pc.CheckQuit?
    case PollReturn(ready) => s.pc.Polling? && ready != [] && (WakeupRead in ready ==> s.efd > 0)
    case NextHandler => s.pc.Dispatching? && !Busy(s) && s.pc.handlers != []
    case RaiseCalling => s.pc == Dispatching([]) && !Busy(s)
    case Swap => s.pc.Swapping?
    case NextFunctor => s.pc.Running? && !Busy(s) && s.pc.rest != []
    case LowerCalling => s.pc == Running([]) && !Busy(s)
    case Act => s.todo != [] && !s.inQueue
    case FinishQueue => s.inQueue
  }

  function Push(s: State, e: Entry): State {
    s.(pending := s.pending + [e], queued := s.queued + [e])
  }

  function StoreQuit(s: State): State {
    s.(quit := true, quits := if s.pc.Starting? then s.quits else s.quits + 1)
  }

  function DoAction(p: Program, s: State): State
    requires s.todo != []
  {
    var rest := s.(todo := s.todo[1..]);
    match s.todo[0]
    case Queue(t) =>
      var e := Entry(LoopThread, t);
      Push(rest, e).(inQueue := true, preloop := if s.pc.Starting? then s.preloop + [e] else s.preloop)
    case Post(t) => s.(todo := p(t) + s.todo[1..])
    case Quit => StoreQuit(rest)
    case Local => rest
  }

  function Apply(p: Program, s: State, step: Step): State
    requires Enabled(s, step)
  {
    match step
    case ForeignPush(tid, t) => Push(s, Entry(Foreign(tid), t)).(owing := s.owing + {tid})
    case ForeignQuit(tid) => StoreQuit(s).(owing := s.owing + {tid})
    case ForeignWake(tid) => s.(owing := s.owing - {tid}, efd := Written(s.efd))
    case PreLoop(work) => s.(todo := work)
    case StartLoop => s.(pc := CheckQuit, quit := false)
    case TestQuit => s.(pc := if s.quit then Exited else Polling)
    case PollReturn(ready) => s.(pc := Dispatching(ready))
    case NextHandler =>
      var s' := s.(pc := Dispatching(s.pc.handlers[1..]));
      (match s.pc.handlers[0]
       case WakeupRead => s'.(efd := 0)
       case User(body) => s'.(todo := body))
    case RaiseCalling => s.(pc := Swapping, calling := true)
    case Swap => s.(pc := Running(s.pending), pending := [], swaps := s.swaps + 1)
    case NextFunctor =>
      var e := s.pc.rest[0];
      s.(pc := Running(s.pc.rest[1..]), executed := s.executed + [e], todo := p(e.task))
    case LowerCalling => s.(pc := CheckQuit, calling := false)
    case Act => DoAction(p, s)
    case FinishQueue => s.(inQueue := false, efd := if s.calling then Written(s.efd) else s.efd)
  }

  ghost predicate Next(p: Program, s: State, s': State) {
    exists step: Step :: Enabled(s, step) && s' == Apply(p, s, step)
  }

  ghost predicate StepAt(p: Program, ss: seq<State>, i: int)
    requires 0 < i < |ss|
  {
    Next(p, ss[i - 1], ss[i])
  }

  /** A finite run: consecutive states are related by one step of some thread. */
  ghost predicate Run(p: Program, ss: seq<State>) {
    && ss != []
    && forall i :: 0 < i < |ss| ==> StepAt(p, ss, i)
  }

  lemma RunFront(p: Program, ss: seq<State>)
    requires Run(p, ss) && |ss| > 1
    ensures Run(p, ss[..|ss| - 1]) && Next(p, ss[|ss| - 2], ss[|ss| - 1])
  {
    var front := ss[..|ss| - 1];
    forall i | 0 < i < |front| ensures StepAt(p, front, i) {
      assert StepAt(p, ss, i);
    }
    assert StepAt(p, ss, |ss| - 1);
  }

  ghost predicate RunFromStart(p: Program, ss: seq<State>) {
    Run(p, ss) && ss[0] == Start()
  }

  // ---------------------------------------------------------------- invariant

  function Batch(s: State): seq<Entry> {
    if s.pc.Running? then s.pc.rest else []
  }

  predicate WakeComing(s: State) {
    s.efd > 0 || s.owing != {}
  }

  /** The loop thread sleeps, or is about to, although work waits and nobody will wake it. */
  predicate Lost(s: State) {
    (s.pc.CheckQuit? || s.pc.Polling?) && s.pending != [] && !WakeComing(s)
  }

  predicate ControlInv(s: State) {
    && (Busy(s) ==> s.pc.Starting? || s.pc.Dispatching? || s.pc.Running?)
    && (s.calling <==> s.pc.Swapping? || s.pc.Running?)
    && (s.swaps == 0 ==> s.executed == [] && !s.pc.Running?)
    && (s.pc.Starting? ==> s.swaps == 0 && s.quits == 0)
    && (!s.pc.Starting? ==> (s.quit <==> s.quits > 0))
    && (s.pc.Exited? ==> s.quit)
  }

  predicate FifoInv(s: State) {
    s.executed + Batch(s) + s.pending == s.queued
  }

  predicate WakeInv(s: State) {
    && ((s.pc.Running? || s.pc.CheckQuit? || s.pc.Polling?) && s.swaps > 0
        ==> s.pending == [] || WakeComing(s) || s.inQueue)
    && ((s.pc.Starting? || s.pc.CheckQuit? || s.pc.Polling?) && s.swaps == 0
        ==> s.pending == s.preloop || WakeComing(s))
    && (s.pc.Polling? && s.quit ==> WakeComing(s))
  }

  predicate Inv(s: State) {
    ControlInv(s) && FifoInv(s) && WakeInv(s)
  }

  lemma StepKeepsControl(p: Program, s: State, step: Step)
    requires ControlInv(s) && Enabled(s, step)
    ensures ControlInv(Apply(p, s, step))
  {
  }

  lemma StepKeepsFifo(p: Program, s: State, step: Step)
    requires ControlInv(s) && FifoInv(s) && Enabled(s, step)
    ensures FifoInv(Apply(p, s, step))
  {
    if step.ForeignPush? || step.Act? {
      var s' := Apply(p, s, step);
      assert forall e :: s.executed + Batch(s) + (s.pending + [e]) == s.executed + Batch(s) + s.pending + [e];
      assert Batch(s') == Batch(s);
    } else if step.Swap? {
      assert s.executed + s.pending + [] == s.executed + [] + s.pending;
    } else if step.NextFunctor? {
      var e := s.pc.rest[0];
      assert s.pc.rest == [e] + s.pc.rest[1..];
      assert s.executed + [e] + s.pc.rest[1..] == s.executed + s.pc.rest;
    }
  }

  lemma StepKeepsWake(p: Program, s: State, step: Step)
    requires ControlInv(s) && WakeInv(s) && Enabled(s, step)
    ensures WakeInv(Apply(p, s, step))
  {
    match step
    case ForeignPush(tid, t) => assert tid in Apply(p, s, step).owing;
    case ForeignQuit(tid) => assert tid in Apply(p, s, step).owing;
    case _ =>
  }

  lemma StepKeepsInv(p: Program, s: State, step: Step)
    requires Inv(s) && Enabled(s, step)
    ensures Inv(Apply(p, s, step))
  {
    StepKeepsControl(p, s, step);
    StepKeepsFifo(p, s, step);
    StepKeepsWake(p, s, step);
  }

  lemma NextKeepsInv(p: Program, s: State, s': State)
    requires Inv(s) && Next(p, s, s')
    ensures Inv(s')
  {
    var step :| Enabled(s, step) && s' == Apply(p, s, step);
    StepKeepsInv(p, s, step);
  }

  lemma {:induction false} RunKeepsInv(p: Program, ss: seq<State>)
    requires Run(p, ss) && Inv(ss[0])
    ensures forall i :: 0 <= i < |ss| ==> Inv(ss[i])
  {
    if |ss| > 1 {
      var front := ss[..|ss| - 1];
      RunFront(p, ss);
      RunKeepsInv(p, front);
      assert Inv(front[|ss| - 2]);
      NextKeepsInv(p, ss[|ss| - 2], ss[|ss| - 1]);
      forall i | 0 <= i < |ss| ensures Inv(ss[i]) {
        if i < |ss| - 1 { assert ss[i] == front[i]; }
      }
    }
  }

  lemma InvAt(p: Program, ss: seq<State>, i: nat)
    requires RunFromStart(p, ss) && i < |ss|
    ensures Inv(ss[i])
  {
    RunKeepsInv(p, ss);
  }

  // ------------------------------------------------------------ main theorems

  /**
   No lost wake-up.  In every interleaving, when the loop thread is about to block or
   is blocked with functors pending, the eventfd is readable or a foreign thread has yet
   to write it, unless every pending functor was queued by the loop thread itself before
   loop() and the queue has never been swapped.
   */
  lemma NoLostWakeup(p: Program, ss: seq<State>, i: nat)
    requires RunFromStart(p, ss) && i < |ss|
    ensures Lost(ss[i]) ==> ss[i].swaps == 0 && ss[i].pending == ss[i].preloop != []
    ensures ss[i].preloop == [] ==> !Lost(ss[i])
  {
    InvAt(p, ss, i);
  }

  /** The run in which the loop thread queues all of `tasks` and then enters loop(). */
  lemma {:induction false} QueueBeforeLoop(p: Program, tasks: seq<TaskId>) returns (ss: seq<State>)
    ensures RunFromStart(p, ss)
    ensures
      var s := ss[|ss| - 1];
      s == Start().(pending := s.preloop, queued := s.preloop, preloop := s.preloop)
      && |s.preloop| == |tasks|
      && forall k :: 0 <= k < |tasks| ==> s.preloop[k] == Entry(LoopThread, tasks[k])
  {
    if tasks == [] {
      ss := [Start()];
    } else {
      ss := QueueBeforeLoop(p, tasks[..|tasks| - 1]);
      var s := ss[|ss| - 1];
      var work := [Queue(tasks[|tasks| - 1])];
      ss := Extend(p, ss, PreLoop(work));
      ss := Extend(p, ss, Act);
      ss := Extend(p, ss, FinishQueue);
      assert ss[|ss| - 1].preloop == s.preloop + [Entry(LoopThread, tasks[|tasks| - 1])];
    }
  }

  lemma Extend(p: Program, ss: seq<State>, step: Step) returns (ss': seq<State>)
    requires Run(p, ss) && Enabled(ss[|ss| - 1], step)
    ensures Run(p, ss') && ss' == ss + [Apply(p, ss[|ss| - 1], step)]
  {
    ss' := ss + [Apply(p, ss[|ss| - 1], step)];
    forall i | 0 < i < |ss'| ensures StepAt(p, ss', i) {
      if i < |ss| { assert StepAt(p, ss, i) && ss'[i - 1] == ss[i - 1] && ss'[i] == ss[i]; }
    }
  }

  /**
   The guard of line 109 fails exactly there: for every number n of functors queued by
   the loop thread before loop(), some run sleeps on all n of them without a wake-up
   coming if and only if n is positive.
   */
  lemma PreLoopQueueingIsLostExactly(p: Program, n: nat)
    ensures n > 0 <==>
            exists ss: seq<State> {:trigger RunFromStart(p, ss)} ::
              RunFromStart(p, ss) && ss[|ss| - 1].pc.Polling? && Lost(ss[|ss| - 1])
              && |ss[|ss| - 1].preloop| == n
  {
    if n > 0 {
      var ss := QueueBeforeLoop(p, seq(n, i => 0));
      ss := Extend(p, ss, StartLoop);
      ss := Extend(p, ss, TestQuit);
      assert RunFromStart(p, ss) && Lost(ss[|ss| - 1]);
    } else {
      forall ss: seq<State> | RunFromStart(p, ss) && |ss[|ss| - 1].preloop| == 0
        ensures !Lost(ss[|ss| - 1])
      {
        NoLostWakeup(p, ss, |ss| - 1);
      }
    }
  }

  /**
   Exactly-once FIFO.  Executed functors, then the rest of the current batch, then the
   pending queue are together the queueInLoop calls in lock order: nothing is lost,
   duplicated or reordered.
   */
  lemma ExactlyOnceFifo(p: Program, ss: seq<State>, i: nat)
    requires RunFromStart(p, ss) && i < |ss|
    ensures ss[i].executed + Batch(ss[i]) + ss[i].pending == ss[i].queued
  {
    InvAt(p, ss, i);
  }

  /** The calls one thread made, in its own order. */
  function CallsOf(es: seq<Entry>, caller: Caller): seq<TaskId> {
    if es == [] then []
    else CallOf(es[0], caller) + CallsOf(es[1..], caller)
  }

  /** The call of one entry, if it is that thread's. */
  function CallOf(e: Entry, caller: Caller): seq<TaskId> {
    if e.from == caller then [e.task] else []
  }

  lemma {:induction false} CallsOfAppend(a: seq<Entry>, b: seq<Entry>, caller: Caller)
    ensures CallsOf(a + b, caller) == CallsOf(a, caller) + CallsOf(b, caller)
  {
    if a == [] {
      assert a + b == b;
    } else {
      CallsOfAppend(a[1..], b, caller);
      assert (a + b)[0] == a[0] && (a + b)[1..] == a[1..] + b;
      Regroup(CallOf(a[0], caller), CallsOf(a[1..], caller), CallsOf(b, caller));
    }
  }

  lemma Regroup<T>(a: seq<T>, b: seq<T>, c: seq<T>)
    ensures a + (b + c) == a + b + c
  {
  }

  /** Each thread's functors are executed in the order in which that thread queued them. */
  lemma ProducerOrderKept(p: Program, ss: seq<State>, i: nat, caller: Caller)
    requires RunFromStart(p, ss) && i < |ss|
    ensures CallsOf(ss[i].executed, caller) <= CallsOf(ss[i].queued, caller)
  {
    var s := ss[i];
    ExactlyOnceFifo(p, ss, i);
    CallsOfAppend(s.executed, Batch(s) + s.pending, caller);
    assert s.executed + (Batch(s) + s.pending) == s.queued;
  }

  function Taken(s: State): seq<Entry> {
    s.executed + Batch(s)
  }

  lemma StepTakes(p: Program, s: State, step: Step)
    requires ControlInv(s) && Enabled(s, step)
    ensures Taken(Apply(p, s, step)) == if step.Swap? then s.executed + s.pending else Taken(s)
  {
    if step.NextFunctor? {
      assert s.executed + [s.pc.rest[0]] + s.pc.rest[1..] == s.executed + s.pc.rest;
    } else if step.Act? {
      assert Batch(Apply(p, s, step)) == Batch(s);
    }
  }

  lemma StepQueues(p: Program, s: State, step: Step)
    requires Enabled(s, step)
    ensures s.queued <= Apply(p, s, step).queued
    ensures step.Swap? ==> Apply(p, s, step).queued == s.queued
    ensures Apply(p, s, step).swaps == s.swaps + (if step.Swap? then 1 else 0)
  {
  }

  /** One step: only a swap refills the batch, and then with everything queued so far. */
  lemma StepMovesForward(p: Program, s: State, s': State)
    requires Inv(s) && Next(p, s, s')
    ensures s.queued <= s'.queued && s.swaps <= s'.swaps
    ensures Taken(s') == if s.swaps < s'.swaps then s.executed + s.pending else Taken(s)
    ensures s.swaps < s'.swaps ==> s'.queued == s.executed + s.pending
  {
    var step :| Enabled(s, step) && s' == Apply(p, s, step);
    StepTakes(p, s, step);
    StepQueues(p, s, step);
    assert s.executed + [] == s.executed;
  }

  predicate Grows(s: State, s': State) {
    s.queued <= s'.queued && s.swaps <= s'.swaps
  }

  /** Only a swap refills the batch, and then with everything queued so far. */
  predicate Refills(s: State, s': State) {
    && Taken(s') == (if s.swaps < s'.swaps then s.executed + s.pending else Taken(s))
    && (s.swaps < s'.swaps ==> s'.queued == s.executed + s.pending)
  }

  predicate SteadyAt(ss: seq<State>, j: int)
    requires 0 < j < |ss|
  {
    Grows(ss[j - 1], ss[j]) && Refills(ss[j - 1], ss[j])
  }

  ghost predicate Steady(ss: seq<State>) {
    forall j :: 0 < j < |ss| ==> SteadyAt(ss, j)
  }

  lemma RunIsSteady(p: Program, ss: seq<State>)
    requires RunFromStart(p, ss)
    ensures Steady(ss)
  {
    forall j | 0 < j < |ss| ensures SteadyAt(ss, j) {
      InvAt(p, ss, j - 1);
      assert StepAt(p, ss, j);
      StepMovesForward(p, ss[j - 1], ss[j]);
    }
  }

  lemma NoBatch(s: State)
    requires !s.pc.Running?
    ensures Taken(s) == s.executed
  {
    assert s.executed + [] == s.executed;
  }

  lemma GrowsFurther(s: State, s': State, s'': State)
    requires Grows(s, s') && Grows(s', s'')
    ensures Grows(s, s'')
  {
  }

  lemma {:induction false} QueuedGrows(ss: seq<State>, i: nat, j: nat)
    requires Steady(ss) && i <= j < |ss|
    ensures Grows(ss[i], ss[j])
  {
    if i < j {
      QueuedGrows(ss, i, j - 1);
      assert SteadyAt(ss, j);
      GrowsFurther(ss[i], ss[j - 1], ss[j]);
    }
  }

  lemma RefillTakes(s: State, s': State, s'': State)
    requires Grows(s, s'') && Refills(s', s'') && s'.swaps < s''.swaps
    ensures s.queued <= Taken(s'')
  {
    assert Taken(s'') == s''.queued;
  }

  lemma {:induction false} TakenBySwap(ss: seq<State>, i: nat, j: nat)
    requires Steady(ss) && i <= j < |ss| && ss[i].swaps < ss[j].swaps
    ensures ss[i].queued <= Taken(ss[j])
  {
    assert SteadyAt(ss, j);
    if ss[j - 1].swaps < ss[j].swaps {
      QueuedGrows(ss, i, j);
      RefillTakes(ss[i], ss[j - 1], ss[j]);
    } else {
      TakenBySwap(ss, i, j - 1);
    }
  }

  /**
   Next-batch delivery.  Whatever had been queued at i has left the pending queue once a
   swap has happened since, and has been executed once that batch is over.
   */
  lemma DeliveredByNextBatch(p: Program, ss: seq<State>, i: nat, j: nat)
    requires RunFromStart(p, ss) && i <= j < |ss|
    ensures ss[i].swaps <= ss[j].swaps && ss[i].queued <= ss[j].queued
    ensures ss[i].swaps < ss[j].swaps ==> ss[i].queued <= Taken(ss[j])
    ensures ss[i].swaps < ss[j].swaps && !ss[j].pc.Running? ==> ss[i].queued <= ss[j].executed
  {
    RunIsSteady(p, ss);
    QueuedGrows(ss, i, j);
    if ss[i].swaps < ss[j].swaps {
      TakenBySwap(ss, i, j);
      if !ss[j].pc.Running? {
        NoBatch(ss[j]);
      }
    }
  }

  lemma {:induction false} BatchKept(ss: seq<State>, i: nat, j: nat)
    requires Steady(ss) && i < j < |ss| && ss[i].swaps < ss[i + 1].swaps == ss[j].swaps
    ensures Taken(ss[j]) == ss[i].executed + ss[i].pending
  {
    assert SteadyAt(ss, j);
    if i + 1 < j {
      QueuedGrows(ss, i + 1, j - 1);
      BatchKept(ss, i, j - 1);
    }
  }

  /** A batch runs exactly what was pending at its swap, however much is queued meanwhile. */
  lemma BatchIsExact(p: Program, ss: seq<State>, i: nat, j: nat)
    requires RunFromStart(p, ss) && i < j < |ss|
    requires ss[i].swaps < ss[i + 1].swaps == ss[j].swaps
    ensures Taken(ss[j]) == ss[i].executed + ss[i].pending
    ensures !ss[j].pc.Running? ==> ss[j].executed == ss[i].executed + ss[i].pending
  {
    RunIsSteady(p, ss);
    BatchKept(ss, i, j);
    if !ss[j].pc.Running? {
      NoBatch(ss[j]);
    }
  }

  // ------------------------------------------------------------- after the end

  lemma ExitedStays(p: Program, s: State, s': State)
    requires ControlInv(s) && s.pc.Exited? && Next(p, s, s')
    ensures s'.pc.Exited? && s'.executed == s.executed && s'.swaps == s.swaps
  {
    var step :| Enabled(s, step) && s' == Apply(p, s, step);
  }

  lemma ExitedAt(p: Program, ss: seq<State>, k: nat)
    requires RunFromStart(p, ss) && 0 < k < |ss| && ss[k - 1].pc.Exited?
    ensures ss[k].pc.Exited? && ss[k].executed == ss[k - 1].executed && ss[k].swaps == ss[k - 1].swaps
  {
    InvAt(p, ss, k - 1);
    assert StepAt(p, ss, k);
    ExitedStays(p, ss[k - 1], ss[k]);
  }

  /** Nothing runs once loop() has returned. */
  lemma {:induction false} NothingRunsAfterExit(p: Program, ss: seq<State>, j: nat, k: nat)
    requires RunFromStart(p, ss) && j <= k < |ss| && ss[j].pc.Exited?
    ensures ss[k].pc.Exited? && ss[k].executed == ss[j].executed && ss[k].swaps == ss[j].swaps
  {
    if j < k {
      NothingRunsAfterExit(p, ss, j, k - 1);
      ExitedAt(p, ss, k);
    }
  }

  /**
   What is never executed.  Let i be the last swap, if there was one.  From the return of
   loop() on, the functors executed are exactly those queued up to i, and those queued
   after it stay in the queue for good.
   */
  lemma LeftAtExitExactly(p: Program, ss: seq<State>, i: nat, j: nat, k: nat)
    requires RunFromStart(p, ss) && j <= k < |ss| && ss[j].pc.Exited?
    requires ss[j].swaps == 0 || (i < j && ss[i].swaps < ss[i + 1].swaps == ss[j].swaps)
    ensures
      var ran := if ss[j].swaps == 0 then [] else ss[i].queued;
      && ss[k].executed == ran
      && ran <= ss[k].queued && ss[k].pending == ss[k].queued[|ran|..]
  {
    NothingRunsAfterExit(p, ss, j, k);
    InvAt(p, ss, j);
    InvAt(p, ss, k);
    if ss[j].swaps > 0 {
      BatchIsExact(p, ss, i, j);
      SwapHasNoBatch(p, ss, i);
    }
    assert ss[k].executed + [] + ss[k].pending == ss[k].queued;
    assert ss[k].queued[|ss[k].executed|..] == ss[k].pending;
  }

  lemma SwapHasNoBatch(p: Program, ss: seq<State>, i: nat)
    requires RunFromStart(p, ss) && i + 1 < |ss| && ss[i].swaps < ss[i + 1].swaps
    ensures ss[i].executed + ss[i].pending == ss[i].queued
  {
    InvAt(p, ss, i);
    assert StepAt(p, ss, i + 1);
    assert ss[i].executed + [] == ss[i].executed;
  }

  /** A run up to the point where the loop thread has swapped out an empty queue. */
  lemma SwapNothing(p: Program) returns (ss: seq<State>)
    ensures RunFromStart(p, ss)
    ensures ss[|ss| - 1] == Start().(pc := Running([]), calling := true, swaps := 1)
  {
    ss := [Start()];
    ss := Extend(p, ss, StartLoop);
    ss := Extend(p, ss, TestQuit);
    ss := Extend(p, ss, PollReturn([User([])]));
    ss := Extend(p, ss, NextHandler);
    ss := Extend(p, ss, RaiseCalling);
    ss := Extend(p, ss, Swap);
  }

  /**
   Such functors exist: a thread queues a functor and then calls quit(), as a server and
   its pool do when they are destroyed, and the loop ends without having run it.
   */
  lemma QueuedBeforeQuitIsLost(p: Program, t: TaskId) returns (ss: seq<State>, i: nat)
    ensures RunFromStart(p, ss)
    ensures i < |ss| && ss[i].pending == [Entry(Foreign(7), t)] && !ss[i].quit
    ensures
      var s := ss[|ss| - 1];
      && s.pc.Exited? && s.owing == {} && s.executed == []
      && s.queued == s.pending == [Entry(Foreign(7), t)]
  {
    ss := SwapNothing(p);
    i := |ss|;
    ss := Extend(p, ss, ForeignPush(7, t));
    assert [] + [Entry(Foreign(7), t)] == [Entry(Foreign(7), t)];
    ss := Extend(p, ss, ForeignWake(7));
    ss := Extend(p, ss, ForeignQuit(7));
    ss := Extend(p, ss, ForeignWake(7));
    ss := Extend(p, ss, LowerCalling);
    ss := Extend(p, ss, TestQuit);
  }

  // --------------------------------------------------------------------- quit

  /** The loop sees a quit request exactly when one was stored after line 52. */
  lemma QuitSeenExactlyAfterStart(p: Program, ss: seq<State>, i: nat)
    requires RunFromStart(p, ss) && i < |ss|
    ensures !ss[i].pc.Starting? ==> (ss[i].quit <==> ss[i].quits > 0)
    ensures ss[i].pc.Exited? ==> ss[i].quits > 0
  {
    InvAt(p, ss, i);
  }

  /** Line 52 wipes an earlier request: the loop goes on to block with nothing to stop it. */
  lemma QuitBeforeLoopIsLost(p: Program) returns (ss: seq<State>)
    ensures RunFromStart(p, ss) && |ss| == 5
    ensures ss[2].quit && ss[4].pc.Polling? && !ss[4].quit
  {
    ss := [Start()];
    ss := Extend(p, ss, PreLoop([Quit]));
    ss := Extend(p, ss, Act);
    ss := Extend(p, ss, StartLoop);
    ss := Extend(p, ss, TestQuit);
  }

  /** How many times the loop thread returns from poll in a run. */
  function PollReturns(ss: seq<State>): nat {
    if |ss| < 2 then 0
    else PollReturns(ss[..|ss| - 1])
         + (if ss[|ss| - 2].pc.Polling? && ss[|ss| - 1].pc.Dispatching? then 1 else 0)
  }

  predicate Quitting(s: State) {
    Inv(s) && s.quit && !s.pc.Starting?
  }

  lemma QuitStays(p: Program, s: State, s': State)
    requires Quitting(s) && Next(p, s, s')
    ensures Quitting(s') && (s'.pc.Polling? ==> s.pc.Polling?)
  {
    var step :| Enabled(s, step) && s' == Apply(p, s, step);
    StepKeepsInv(p, s, step);
  }

  /**
   Quit is never missed.  Once quit_ is true after line 52 it stays true, a thread
   blocked in poll is being woken, and poll returns at most once more.
   */
  lemma {:induction false} QuitNeverMissed(p: Program, ss: seq<State>)
    requires Run(p, ss) && Quitting(ss[0])
    ensures
      var s := ss[|ss| - 1];
      && Quitting(s)
      && (s.pc.Polling? ==> WakeComing(s))
      && PollReturns(ss) + (if s.pc.Polling? then 1 else 0)
         <= (if ss[0].pc.Polling? then 1 else 0)
  {
    if |ss| > 1 {
      var front := ss[..|ss| - 1];
      RunFront(p, ss);
      QuitNeverMissed(p, front);
      assert front[|front| - 1] == ss[|ss| - 2];
      assert Next(p, ss[|ss| - 2], ss[|ss| - 1]);
      QuitStays(p, ss[|ss| - 2], ss[|ss| - 1]);
    }
  }

  // ----------------------------------------------------------------- progress

  /** Loop-thread steps a body may take, given a bound on each functor it calls directly. */
  function BodyCost(cost: TaskId -> nat, body: seq<Action>): nat {
    if body == [] then 0
    else (match body[0]
          case Queue(_) => 2
          case Post(t) => 1 + cost(t)
          case _ => 1) + BodyCost(cost, body[1..])
  }

  /** `cost` certifies that every functor call terminates. */
  ghost predicate Terminating(p: Program, cost: TaskId -> nat) {
    forall t: TaskId :: BodyCost(cost, p(t)) <= cost(t)
  }

  function BatchCost(cost: TaskId -> nat, es: seq<Entry>): nat {
    if es == [] then 0 else 1 + cost(es[0].task) + BatchCost(cost, es[1..])
  }

  function HandlersCost(cost: TaskId -> nat, hs: seq<Handler>): nat {
    if hs == [] then 0
    else 1 + (if hs[0].User? then BodyCost(cost, hs[0].body) else 0) + HandlersCost(cost, hs[1..])
  }

  function Work(cost: TaskId -> nat, s: State): nat {
    BodyCost(cost, s.todo) + (if s.inQueue then 1 else 0)
    + (match s.pc
       case Dispatching(hs) => HandlersCost(cost, hs)
       case Running(es) => BatchCost(cost, es)
       case _ => 0)
  }

  /** Stages left until the k-th queued functor has been executed. */
  function StagesToTask(s: State, k: nat): nat {
    if k < |s.executed| then 0
    else if k < |s.executed + Batch(s)| then 1
    else match s.pc
      case Swapping => 2
      case Dispatching(_) => 3
      case Polling => 4
      case CheckQuit => 5
      case Running(_) => 6
      case Starting => 7
      case Exited => 0
  }

  /** Stages left until loop() returns, once quit_ is true. */
  function StagesToExit(s: State): nat {
    match s.pc
    case Exited => 0
    case CheckQuit => 1
    case Running(_) => 2
    case Swapping => 3
    case Dispatching(_) => 4
    case Polling => 5
    case Starting => 6
  }

  predicate LexLess(a: nat, b: nat, a': nat, b': nat) {
    a < a' || (a == a' && b < b')
  }

  lemma {:induction false} BodyCostAppend(cost: TaskId -> nat, a: seq<Action>, b: seq<Action>)
    ensures BodyCost(cost, a + b) == BodyCost(cost, a) + BodyCost(cost, b)
  {
    if a == [] {
      assert a + b == b;
    } else {
      BodyCostAppend(cost, a[1..], b);
      assert (a + b)[1..] == a[1..] + b;
    }
  }

  /** The steps within a stage: the loop thread executes a body. */
  predicate InStage(step: Step) {
    step.NextHandler? || step.NextFunctor? || step.Act? || step.FinishQueue?
  }

  /** Inside one stage, every loop-thread step leaves strictly less work. */
  lemma StepWorks(p: Program, cost: TaskId -> nat, s: State, step: Step)
    requires Terminating(p, cost) && Enabled(s, step) && ControlInv(s)
    requires InStage(step)
    ensures Work(cost, Apply(p, s, step)) < Work(cost, s)
  {
    match step
    case Act =>
      if s.todo[0].Post? {
        var t := s.todo[0].task;
        BodyCostAppend(cost, p(t), s.todo[1..]);
        assert BodyCost(cost, p(t)) <= cost(t);
      }
    case NextFunctor =>
      var t := s.pc.rest[0].task;
      assert BodyCost(cost, p(t)) <= cost(t);
    case _ =>
  }

  /**
   Queued to executed.  While the k-th queued functor waits and the loop has not quit,
   every loop-thread step brings its execution nearer in a well-founded order, and no
   step of another thread puts it further off.  Functors may queue themselves again.
   */
  lemma TaskProgress(p: Program, cost: TaskId -> nat, s: State, step: Step, k: nat)
    requires Terminating(p, cost) && Inv(s) && Enabled(s, step)
    requires |s.executed| <= k < |s.queued|
    ensures
      var s' := Apply(p, s, step);
      ByLoop(step) && !step.PreLoop? ==>
        s'.pc.Exited? || LexLess(StagesToTask(s', k), Work(cost, s'), StagesToTask(s, k), Work(cost, s))
    ensures
      var s' := Apply(p, s, step);
      !ByLoop(step) ==> StagesToTask(s', k) == StagesToTask(s, k) && Work(cost, s') == Work(cost, s)
  {
    if !ByLoop(step) {
      ForeignLeavesTask(p, cost, s, step, k);
    } else if InStage(step) {
      StepWorks(p, cost, s, step);
      StageKept(p, s, step, k);
    }
  }

  lemma StageKept(p: Program, s: State, step: Step, k: nat)
    requires ControlInv(s) && Enabled(s, step) && InStage(step) && k >= |s.executed|
    ensures StagesToTask(Apply(p, s, step), k) <= StagesToTask(s, k)
  {
  }

  lemma ForeignLeavesTask(p: Program, cost: TaskId -> nat, s: State, step: Step, k: nat)
    requires Enabled(s, step) && !ByLoop(step)
    ensures StagesToTask(Apply(p, s, step), k) == StagesToTask(s, k)
    ensures Work(cost, Apply(p, s, step)) == Work(cost, s)
  {
  }

  /** With quit_ set, every loop-thread step brings the return from loop() nearer. */
  lemma ExitProgress(p: Program, cost: TaskId -> nat, s: State, step: Step)
    requires Terminating(p, cost) && Inv(s) && Enabled(s, step)
    requires s.quit && !s.pc.Starting?
    ensures
      var s' := Apply(p, s, step);
      if ByLoop(step)
      then LexLess(StagesToExit(s'), Work(cost, s'), StagesToExit(s), Work(cost, s))
      else StagesToExit(s') == StagesToExit(s) && Work(cost, s') == Work(cost, s)
  {
    if InStage(step) {
      StepWorks(p, cost, s, step);
    }
  }

  /**
   Never stuck.  Even if no other descriptor ever becomes ready, while loop() runs and
   either functors are pending or quit_ is set, the loop thread has a step to take, or
   some foreign thread still has its wake-up to write and writing it gives it one.
   */
  lemma NeverStuck(p: Program, ss: seq<State>, i: nat) returns (step: Step)
    requires RunFromStart(p, ss) && i < |ss|
    requires !ss[i].pc.Starting? && !ss[i].pc.Exited?
    requires ss[i].pc.Polling? ==> ss[i].pending != [] || ss[i].quit
    requires ss[i].pc.Polling? && ss[i].swaps == 0 && !ss[i].quit ==> ss[i].pending != ss[i].preloop
    ensures Enabled(ss[i], step)
    ensures ByLoop(step) || (step.ForeignWake? && Apply(p, ss[i], step).efd > 0)
    ensures step.PollReturn? ==> step.ready == [WakeupRead]
  {
    InvAt(p, ss, i);
    var s := ss[i];
    if s.inQueue {
      step := FinishQueue;
    } else if s.todo != [] {
      step := Act;
    } else {
      match s.pc
      case CheckQuit => step := TestQuit;
      case Polling =>
        if s.efd > 0 {
          step := PollReturn([WakeupRead]);
        } else {
          var tid :| tid in s.owing;
          step := ForeignWake(tid);
        }
      case Dispatching(hs) => step := if hs == [] then RaiseCalling else NextHandler;
      case Swapping => step := Swap;
      case Running(es) => step := if es == [] then LowerCalling else NextFunctor;
    }
  }

  // ----------------------------------------------- a functor that posts itself

  /**
   A functor whose body posts itself to its own loop, as TcpServer::removeConnection does
   (Netmux/TcpServer.cc:88-90), never returns: from the moment the loop thread enters it,
   no functor starts, nothing leaves the queue, and no certificate of termination exists.
   */
  lemma {:induction false} SelfPostNeverReturns(p: Program, t: TaskId, ss: seq<State>)
    requires p(t) == [Post(t)]
    requires Run(p, ss) && ControlInv(ss[0]) && ss[0].todo == [Post(t)] && !ss[0].inQueue
    requires !ss[0].pc.Starting?
    ensures
      var s := ss[|ss| - 1];
      && ControlInv(s) && s.todo == [Post(t)] && !s.inQueue && s.pc == ss[0].pc
      && s.executed == ss[0].executed && ss[0].pending <= s.pending
    ensures !exists cost: TaskId -> nat :: Terminating(p, cost)
  {
    if |ss| > 1 {
      var front := ss[..|ss| - 1];
      RunFront(p, ss);
      SelfPostNeverReturns(p, t, front);
      var s, s' := ss[|ss| - 2], ss[|ss| - 1];
      assert s == front[|front| - 1];
      assert Next(p, s, s');
      var step :| Enabled(s, step) && s' == Apply(p, s, step);
      StepKeepsControl(p, s, step);
      assert p(t) + s.todo[1..] == [Post(t)];
    } else {
      forall cost: TaskId -> nat ensures !Terminating(p, cost) {
        assert BodyCost(cost, p(t)) == 1 + cost(t);
      }
    }
  }

  // ------------------------------------------------ what executing a body queues

  /** What executing `todo` queues, calls made through postInLoop included. */
  ghost function Requests(p: Program, cost: TaskId -> nat, todo: seq<Action>): seq<Entry>
    requires Terminating(p, cost)
    decreases BodyCost(cost, todo)
  {
    if todo == [] then []
    else match todo[0]
      case Queue(t) => [Entry(LoopThread, t)] + Requests(p, cost, todo[1..])
      case Post(t) =>
        BodyCostAppend(cost, p(t), todo[1..]);
        assert BodyCost(cost, p(t)) <= cost(t);
        Requests(p, cost, p(t) + todo[1..])
      case _ => Requests(p, cost, todo[1..])
  }

  ghost function BatchRequests(p: Program, cost: TaskId -> nat, batch: seq<Entry>): seq<Entry>
    requires Terminating(p, cost)
  {
    if batch == [] then []
    else Requests(p, cost, p(batch[0].task)) + BatchRequests(p, cost, batch[1..])
  }

  /** What the handlers of a dispatch queue. */
  ghost function HandlerRequests(p: Program, cost: TaskId -> nat, ready: seq<Handler>): seq<Entry>
    requires Terminating(p, cost)
  {
    if ready == [] then []
    else (if ready[0].User? then Requests(p, cost, ready[0].body) else []) + HandlerRequests(p, cost, ready[1..])
  }

  /**
   The meaning of a body's requests: those of its parts in order; a queued functor itself; and
   for a posted one all that its body requests, at once.
   */
  lemma {:induction false} RequestsAppend(p: Program, cost: TaskId -> nat, a: seq<Action>, b: seq<Action>)
    requires Terminating(p, cost)
    ensures Requests(p, cost, a + b) == Requests(p, cost, a) + Requests(p, cost, b)
    decreases BodyCost(cost, a)
  {
    if a == [] {
      assert a + b == b;
    } else {
      assert (a + b)[0] == a[0] && (a + b)[1..] == a[1..] + b;
      if a[0].Post? {
        var body := p(a[0].task);
        BodyCostAppend(cost, body, a[1..]);
        assert BodyCost(cost, body) <= cost(a[0].task);
        RequestsAppend(p, cost, body + a[1..], b);
        assert body + (a[1..] + b) == body + a[1..] + b;
      } else {
        RequestsAppend(p, cost, a[1..], b);
        if a[0].Queue? {
          Regroup([Entry(LoopThread, a[0].task)], Requests(p, cost, a[1..]), Requests(p, cost, b));
        }
      }
    }
  }

  lemma RequestsOfAction(p: Program, cost: TaskId -> nat, action: Action)
    requires Terminating(p, cost)
    ensures Requests(p, cost, [action])
            == match action
               case Queue(t) => [Entry(LoopThread, t)]
               case Post(t) => Requests(p, cost, p(t))
               case _ => []
  {
    assert [action][1..] == [];
    if action.Post? {
      assert p(action.task) + [] == p(action.task);
    }
  }

  /** The calls in order: postInLoop on the loop thread comes before what its caller does next. */
  lemma PostedRequestsFirst(p: Program, cost: TaskId -> nat, t: TaskId, rest: seq<Action>)
    requires Terminating(p, cost)
    ensures Requests(p, cost, [Post(t)] + rest) == Requests(p, cost, p(t)) + Requests(p, cost, rest)
  {
    RequestsAppend(p, cost, [Post(t)], rest);
    RequestsOfAction(p, cost, Post(t));
  }

  /** Handlers and functors alike: what several request is what each requests, in their order. */
  lemma {:induction false} HandlerRequestsAppend(p: Program, cost: TaskId -> nat, a: seq<Handler>, b: seq<Handler>)
    requires Terminating(p, cost)
    ensures HandlerRequests(p, cost, a + b) == HandlerRequests(p, cost, a) + HandlerRequests(p, cost, b)
    ensures forall body :: HandlerRequests(p, cost, [User(body)]) == Requests(p, cost, body)
    ensures HandlerRequests(p, cost, [WakeupRead]) == []
  {
    assert forall h: Handler :: [h][1..] == [];
    if a == [] {
      assert a + b == b;
    } else {
      assert (a + b)[0] == a[0] && (a + b)[1..] == a[1..] + b;
      HandlerRequestsAppend(p, cost, a[1..], b);
      Regroup(if a[0].User? then Requests(p, cost, a[0].body) else [],
              HandlerRequests(p, cost, a[1..]), HandlerRequests(p, cost, b));
    }
  }

  lemma {:induction false} BatchRequestsAppend(p: Program, cost: TaskId -> nat, a: seq<Entry>, b: seq<Entry>)
    requires Terminating(p, cost)
    ensures BatchRequests(p, cost, a + b) == BatchRequests(p, cost, a) + BatchRequests(p, cost, b)
    ensures forall e :: BatchRequests(p, cost, [e]) == Requests(p, cost, p(e.task))
  {
    assert forall e: Entry :: [e][1..] == [];
    if a == [] {
      assert a + b == b;
    } else {
      assert (a + b)[0] == a[0] && (a + b)[1..] == a[1..] + b;
      BatchRequestsAppend(p, cost, a[1..], b);
      Regroup(Requests(p, cost, p(a[0].task)), BatchRequests(p, cost, a[1..]), BatchRequests(p, cost, b));
    }
  }

  predicate EndsWith(todo: seq<Action>, rest: seq<Action>) {
    |rest| <= |todo| && todo[|todo| - |rest|..] == rest
  }

  /** The call made in front of `rest` has returned. */
  predicate BackAt(s: State, rest: seq<Action>) {
    s.todo == rest && !s.inQueue
  }

  lemma TailEndsWith(todo: seq<Action>, rest: seq<Action>)
    requires EndsWith(todo, rest) && todo != rest
    ensures todo != [] && EndsWith(todo[1..], rest)
  {
    assert todo[|todo| - |rest|..] == todo[1..][|todo| - 1 - |rest|..];
  }

  lemma CallEndsWith(body: seq<Action>, todo: seq<Action>, rest: seq<Action>)
    requires EndsWith(todo, rest)
    ensures EndsWith(body + todo, rest)
  {
    assert (body + todo)[|body + todo| - |rest|..] == todo[|todo| - |rest|..];
  }

  lemma BusyStep(p: Program, s: State, step: Step, rest: seq<Action>)
    requires ControlInv(s) && Enabled(s, step) && EndsWith(s.todo, rest) && !BackAt(s, rest)
    ensures Busy(s) && (step.Act? || step.FinishQueue? || !ByLoop(step))
    ensures
      var s' := Apply(p, s, step);
      EndsWith(s'.todo, rest) && s'.pc == s.pc && s'.executed == s.executed
  {
    if step.Act? {
      TailEndsWith(s.todo, rest);
      if s.todo[0].Post? {
        CallEndsWith(p(s.todo[0].task), s.todo[1..], rest);
      }
    }
  }

  /**
   Calls nest.  From a state in which `rest` is what the loop thread does after a call, and
   until that call has returned, whatever other threads do: `rest` is still all to be done,
   no handler and no functor starts.
   */
  lemma {:induction false} CallsNest(p: Program, ss: seq<State>, rest: seq<Action>)
    requires Run(p, ss) && ControlInv(ss[0]) && EndsWith(ss[0].todo, rest)
    requires forall j :: 0 <= j < |ss| - 1 ==> !BackAt(ss[j], rest)
    ensures
      var s := ss[|ss| - 1];
      ControlInv(s) && EndsWith(s.todo, rest) && s.pc == ss[0].pc && s.executed == ss[0].executed
  {
    if |ss| > 1 {
      var front := ss[..|ss| - 1];
      RunFront(p, ss);
      CallsNest(p, front, rest);
      var s, s' := ss[|ss| - 2], ss[|ss| - 1];
      assert s == front[|front| - 1] && !BackAt(s, rest);
      var step :| Enabled(s, step) && s' == Apply(p, s, step);
      StepKeepsControl(p, s, step);
      BusyStep(p, s, step, rest);
    }
  }

  /** What the loop thread has queued, and what it will queue before it is done with `todo`. */
  ghost function OwnTasks(p: Program, cost: TaskId -> nat, s: State): seq<TaskId>
    requires Terminating(p, cost)
  {
    CallsOf(s.queued, LoopThread) + CallsOf(Requests(p, cost, s.todo), LoopThread)
  }

  lemma ActKeepsOwnTasks(p: Program, cost: TaskId -> nat, s: State)
    requires Terminating(p, cost) && Enabled(s, Act)
    ensures OwnTasks(p, cost, Apply(p, s, Act)) == OwnTasks(p, cost, s)
  {
    if s.todo[0].Queue? {
      var e := Entry(LoopThread, s.todo[0].task);
      var rest := Requests(p, cost, s.todo[1..]);
      CallsOfAppend(s.queued, [e], LoopThread);
      CallsOfAppend([e], rest, LoopThread);
      Regroup(CallsOf(s.queued, LoopThread), CallsOf([e], LoopThread), CallsOf(rest, LoopThread));
    }
  }

  lemma BusyKeepsOwnTasks(p: Program, cost: TaskId -> nat, s: State, step: Step)
    requires Terminating(p, cost) && Enabled(s, step)
    requires step.Act? || step.FinishQueue? || !ByLoop(step)
    ensures OwnTasks(p, cost, Apply(p, s, step)) == OwnTasks(p, cost, s)
  {
    if step.Act? {
      ActKeepsOwnTasks(p, cost, s);
    } else if step.ForeignPush? {
      var e := Entry(Foreign(step.tid), step.task);
      CallsOfAppend(s.queued, [e], LoopThread);
      assert CallsOf([e], LoopThread) == [];
      assert CallsOf(s.queued, LoopThread) + [] == CallsOf(s.queued, LoopThread);
    }
  }

  lemma StepKeepsOwnTasks(p: Program, cost: TaskId -> nat, s: State, s': State, rest: seq<Action>)
    requires Terminating(p, cost) && Next(p, s, s')
    requires ControlInv(s) && EndsWith(s.todo, rest) && !BackAt(s, rest)
    ensures OwnTasks(p, cost, s') == OwnTasks(p, cost, s)
  {
    var step :| Enabled(s, step) && s' == Apply(p, s, step);
    BusyStep(p, s, step, rest);
    BusyKeepsOwnTasks(p, cost, s, step);
  }

  lemma {:induction false} OwnTasksKept(p: Program, cost: TaskId -> nat, ss: seq<State>, rest: seq<Action>)
    requires Terminating(p, cost)
    requires Run(p, ss) && ControlInv(ss[0]) && EndsWith(ss[0].todo, rest)
    requires forall j :: 0 <= j < |ss| - 1 ==> !BackAt(ss[j], rest)
    ensures OwnTasks(p, cost, ss[|ss| - 1]) == OwnTasks(p, cost, ss[0])
  {
    if |ss| > 1 {
      var front := ss[..|ss| - 1];
      RunFront(p, ss);
      OwnTasksKept(p, cost, front, rest);
      CallsNest(p, front, rest);
      assert ss[|ss| - 2] == front[|front| - 1] && !BackAt(ss[|ss| - 2], rest);
      StepKeepsOwnTasks(p, cost, ss[|ss| - 2], ss[|ss| - 1], rest);
    }
  }

  lemma CancelTail<T>(a: seq<T>, b: seq<T>, c: seq<T>)
    requires a + c == b + c
    ensures a == b
  {
    assert |a| == |b|;
    assert a == (a + c)[..|a|] && b == (b + c)[..|b|];
  }

  /**
   postInLoop on the loop thread is a plain call.  From the state in which it is about to be
   made to the state in which it has returned, the loop thread queues exactly what the
   posted functor requests, so all of it comes before anything its caller queues later.
   */
  lemma PostedQueuesFirst(p: Program, cost: TaskId -> nat, ss: seq<State>, t: TaskId, rest: seq<Action>)
    requires Terminating(p, cost)
    requires Run(p, ss) && ControlInv(ss[0]) && ss[0].todo == [Post(t)] + rest
    requires BackAt(ss[|ss| - 1], rest) && forall j :: 0 <= j < |ss| - 1 ==> !BackAt(ss[j], rest)
    ensures CallsOf(ss[|ss| - 1].queued, LoopThread)
            == CallsOf(ss[0].queued, LoopThread) + CallsOf(Requests(p, cost, p(t)), LoopThread)
  {
    var was, now := CallsOf(ss[0].queued, LoopThread), CallsOf(ss[|ss| - 1].queued, LoopThread);
    var mine, later := Requests(p, cost, p(t)), Requests(p, cost, rest);
    OwnTasksKept(p, cost, ss, rest);
    PostedRequestsFirst(p, cost, t, rest);
    CallsOfAppend(mine, later, LoopThread);
    Regroup(was, CallsOf(mine, LoopThread), CallsOf(later, LoopThread));
    CancelTail(now, was + CallsOf(mine, LoopThread), CallsOf(later, LoopThread));
  }
}
