/**
 `send` and `shutdown` on one connection (Netmux/TcpConnection.cc:73-89) called by any
 number of threads, interleaved at each test of the state, each store to it, and each
 hand-over to the loop: immediate on the loop thread, through the FIFO queue elsewhere.
 */
module SendOrder {
  import opened Connections

  /** The thread of the connection's loop; every other number is a foreign thread. */
  const LOOP: nat := 0

  datatype Job = SendJob(from: nat, data: nat) | ShutJob(from: nat)

  datatype Pc =
    | SendTested(data: nat)  // between lines 74 and 78
    | ShutTested             // between lines 85 and 86
    | ShutStored             // between lines 86 and 87

  datatype State = State(
    state: ConnState,
    pcs: map<nat, Pc>,   // threads inside send or shutdown
    jobs: seq<Job>,      // closures queued and not yet run
    log: seq<Job>,       // sendInLoop and shutdownInLoop executed
    accepted: seq<Job>   // calls that passed their test
  )

  function Start(): State {
    State(Connecting, map[], [], [], [])
  }

  datatype Step =
    | Establish
    | Close
    | SendTest(t: nat, data: nat)
    | ShutTest(t: nat)
    | ShutStore(t: nat)
    | Go(t: nat)   // line 76 or 78, or line 87
    | RunJob

  predicate Enabled(s: State, step: Step) {
    match step
    case Establish => s.state.Connecting?
    case Close => true
    case SendTest(t, _) => t !in s.pcs
    case ShutTest(t) => t !in s.pcs
    case ShutStore(t) => t in s.pcs && s.pcs[t].ShutTested?
    case Go(t) => t in s.pcs && !s.pcs[t].ShutTested?
    case RunJob => s.jobs != [] && LOOP !in s.pcs
  }

  function InFlight(t: nat, pc: Pc): Job {
    if pc.SendTested? then SendJob(t, pc.data) else ShutJob(t)
  }

  function Apply(s: State, step: Step): State
    requires Enabled(s, step)
  {
    match step
    case Establish => s.(state := Connected)
    case Close => s.(state := Disconnected)
    case SendTest(t, data) =>
      if s.state.Connected?
      then s.(pcs := s.pcs[t := SendTested(data)], accepted := s.accepted + [SendJob(t, data)])
      else s
    case ShutTest(t) =>
      if s.state.Connected?
      then s.(pcs := s.pcs[t := ShutTested], accepted := s.accepted + [ShutJob(t)])
      else s
    case ShutStore(t) => s.(state := Disconnecting, pcs := s.pcs[t := ShutStored])
    case Go(t) =>
      var job := InFlight(t, s.pcs[t]);
      var s' := s.(pcs := s.pcs - {t});
      if t == LOOP then s'.(log := s.log + [job]) else s'.(jobs := s.jobs + [job])
    case RunJob => s.(jobs := s.jobs[1..], log := s.log + [s.jobs[0]])
  }

  ghost predicate Next(s: State, s': State) {
    exists step: Step :: Enabled(s, step) && s' == Apply(s, step)
  }

  ghost predicate StepAt(ss: seq<State>, i: int)
    requires 0 < i < |ss|
  {
    Next(ss[i - 1], ss[i])
  }

  ghost predicate Run(ss: seq<State>) {
    && ss != [] && ss[0] == Start()
    && forall i :: 0 < i < |ss| ==> StepAt(ss, i)
  }

  lemma RunFront(ss: seq<State>)
    requires Run(ss) && |ss| > 1
    ensures Run(ss[..|ss| - 1]) && Next(ss[|ss| - 2], ss[|ss| - 1])
  {
    var front := ss[..|ss| - 1];
    forall i | 0 < i < |front| ensures StepAt(front, i) {
      assert StepAt(ss, i);
    }
    assert StepAt(ss, |ss| - 1);
  }

  /** The calls of one thread, in order. */
  function Calls(jobs: seq<Job>, t: nat): seq<Job> {
    if jobs == [] then [] else Own(jobs[0], t) + Calls(jobs[1..], t)
  }

  function Own(job: Job, t: nat): seq<Job> {
    if job.from == t then [job] else []
  }

  lemma Assoc<T>(a: seq<T>, b: seq<T>, c: seq<T>)
    ensures a + (b + c) == a + b + c
  {
  }

  lemma {:induction false} CallsAppend(a: seq<Job>, b: seq<Job>, t: nat)
    ensures Calls(a + b, t) == Calls(a, t) + Calls(b, t)
  {
    if a == [] {
      assert a + b == b;
    } else {
      CallsAppend(a[1..], b, t);
      assert (a + b)[0] == a[0] && (a + b)[1..] == a[1..] + b;
      Assoc(Own(a[0], t), Calls(a[1..], t), Calls(b, t));
    }
  }

  lemma {:induction false} CallsHold(jobs: seq<Job>, t: nat, job: Job)
    ensures job in Calls(jobs, t) <==> job in jobs && job.from == t
  {
    if jobs != [] {
      CallsHold(jobs[1..], t, job);
      assert jobs == [jobs[0]] + jobs[1..];
    }
  }

  function Pending(s: State, t: nat): seq<Job> {
    if t in s.pcs then [InFlight(t, s.pcs[t])] else []
  }

  /** Sends only, with at most one shutdown, which is last. */
  predicate ShutLast(calls: seq<Job>) {
    forall i :: 0 <= i < |calls| - 1 ==> calls[i].SendJob?
  }

  ghost predicate CallsInv(s: State, t: nat) {
    Calls(s.accepted, t) == Calls(s.log, t) + Calls(s.jobs, t) + Pending(s, t)
  }

  ghost predicate ShutInv(s: State, t: nat) {
    && ShutLast(Calls(s.accepted, t))
    && (ShutJob(t) in s.accepted ==>
          (t in s.pcs && s.pcs[t].ShutTested?) || (!s.state.Connecting? && !s.state.Connected?))
    && (s.state.Connecting? ==> Calls(s.accepted, t) == [] && t !in s.pcs)
  }

  ghost predicate ThreadInv(s: State, t: nat) {
    CallsInv(s, t) && ShutInv(s, t)
  }

  ghost predicate Inv(s: State) {
    && (forall job :: job in s.jobs ==> job.from != LOOP)
    && (forall t :: ThreadInv(s, t))
  }

  lemma AllSends(jobs: seq<Job>, t: nat)
    requires ShutJob(t) !in jobs
    ensures forall i :: 0 <= i < |Calls(jobs, t)| ==> Calls(jobs, t)[i].SendJob?
  {
    var calls := Calls(jobs, t);
    forall i | 0 <= i < |calls| ensures calls[i].SendJob? {
      CallsHold(jobs, t, calls[i]);
    }
  }

  lemma CallsSnoc(jobs: seq<Job>, job: Job, t: nat)
    ensures Calls(jobs + [job], t) == Calls(jobs, t) + (if job.from == t then [job] else [])
  {
    CallsAppend(jobs, [job], t);
    assert Calls([job], t) == (if job.from == t then [job] else []) + Calls([], t);
  }

  lemma Regroup<T>(a: seq<T>, b: seq<T>, c: seq<T>, d: seq<T>)
    ensures a + (b + c) + d == a + b + c + d
  {
  }

  lemma RegroupTail<T>(a: seq<T>, b: seq<T>, c: seq<T>, d: seq<T>)
    ensures a + (b + c) + d == a + b + (c + d)
  {
  }

  /** A hand-over moves the call in flight; `own` is that call as thread t sees it. */
  lemma PendingMoves(s: State, u: nat, t: nat)
    requires Enabled(s, Go(u))
    ensures
      var own := if u == t then [InFlight(u, s.pcs[u])] else [];
      Pending(s, t) == own + Pending(Apply(s, Go(u)), t)
  {
  }

  lemma ForeignGoKeepsCalls(s: State, u: nat, t: nat)
    requires Enabled(s, Go(u)) && CallsInv(s, t) && u != LOOP
    ensures CallsInv(Apply(s, Go(u)), t)
  {
    var job, s' := InFlight(u, s.pcs[u]), Apply(s, Go(u));
    PendingMoves(s, u, t);
    CallsSnoc(s.jobs, job, t);
    var own := if u == t then [job] else [];
    RegroupTail(Calls(s.log, t), Calls(s.jobs, t), own, Pending(s', t));
  }

  /** `own` moves past `b`, one of the two being empty. */
  lemma MovePast<T>(a: seq<T>, b: seq<T>, own: seq<T>, rest: seq<T>)
    requires b == [] || own == []
    ensures a + b + (own + rest) == a + own + b + rest
  {
    if b == [] {
      assert a + b == a;
      assert a + own + b == a + own;
    } else {
      assert own + rest == rest;
      assert a + own == a;
    }
  }

  lemma LoopGoKeepsCalls(s: State, t: nat)
    requires Enabled(s, Go(LOOP)) && CallsInv(s, t)
    requires forall job :: job in s.jobs ==> job.from != LOOP
    ensures CallsInv(Apply(s, Go(LOOP)), t)
  {
    var job, s' := InFlight(LOOP, s.pcs[LOOP]), Apply(s, Go(LOOP));
    CallsSnoc(s.log, job, t);
    PendingMoves(s, LOOP, t);
    if t == LOOP {
      NoneFromLoop(s.jobs);
    }
    MovePast(Calls(s.log, t), Calls(s.jobs, t), if t == LOOP then [job] else [], Pending(s', t));
  }

  lemma RunJobKeepsCalls(s: State, t: nat)
    requires Enabled(s, RunJob) && CallsInv(s, t)
    ensures CallsInv(Apply(s, RunJob), t)
  {
    var own := if s.jobs[0].from == t then [s.jobs[0]] else [];
    CallsSnoc(s.log, s.jobs[0], t);
    assert Calls(s.jobs, t) == own + Calls(s.jobs[1..], t);
    Regroup(Calls(s.log, t), own, Calls(s.jobs[1..], t), Pending(s, t));
  }

  /** A call that passes its test is accepted and in flight at once. */
  lemma AcceptKeepsCalls(s: State, s': State, job: Job, pc: Pc, t: nat)
    requires CallsInv(s, t) && job.from !in s.pcs && InFlight(job.from, pc) == job
    requires s' == s.(pcs := s.pcs[job.from := pc], accepted := s.accepted + [job])
    ensures CallsInv(s', t)
  {
    CallsSnoc(s.accepted, job, t);
    if job.from == t {
      Assoc(Calls(s.log, t) + Calls(s.jobs, t), [], [job]);
    }
  }

  lemma StepKeepsCalls(s: State, step: Step, t: nat)
    requires Enabled(s, step) && CallsInv(s, t)
    requires forall job :: job in s.jobs ==> job.from != LOOP
    ensures CallsInv(Apply(s, step), t)
  {
    match step
    case SendTest(u, data) =>
      if s.state.Connected? {
        AcceptKeepsCalls(s, Apply(s, step), SendJob(u, data), SendTested(data), t);
      }
    case ShutTest(u) =>
      if s.state.Connected? {
        AcceptKeepsCalls(s, Apply(s, step), ShutJob(u), ShutTested, t);
      }
    case Go(u) =>
      if u == LOOP { LoopGoKeepsCalls(s, t); } else { ForeignGoKeepsCalls(s, u, t); }
    case RunJob => RunJobKeepsCalls(s, t);
    case _ =>
  }

  lemma StepKeepsShut(s: State, step: Step, t: nat)
    requires Enabled(s, step) && ShutInv(s, t)
    ensures ShutInv(Apply(s, step), t)
  {
    if ShutJob(t) !in s.accepted {
      AllSends(s.accepted, t);
    }
    match step
    case SendTest(u, data) =>
      CallsSnoc(s.accepted, SendJob(u, data), t);
    case ShutTest(u) =>
      CallsSnoc(s.accepted, ShutJob(u), t);
    case _ =>
  }

  lemma {:induction false} NoneFromLoop(jobs: seq<Job>)
    requires forall job :: job in jobs ==> job.from != LOOP
    ensures Calls(jobs, LOOP) == []
  {
    if jobs != [] {
      assert jobs[0] in jobs;
      NoneFromLoop(jobs[1..]);
    }
  }

  lemma {:induction false} RunKeepsInv(ss: seq<State>)
    requires Run(ss)
    ensures Inv(ss[|ss| - 1])
  {
    if |ss| > 1 {
      var front := ss[..|ss| - 1];
      RunFront(ss);
      RunKeepsInv(front);
      var s, s' := ss[|ss| - 2], ss[|ss| - 1];
      assert Next(s, s');
      var step :| Enabled(s, step) && s' == Apply(s, step);
      assert forall job :: job in s'.jobs ==> job.from != LOOP;
      forall t ensures ThreadInv(s', t) {
        assert ThreadInv(s, t);
        StepKeepsCalls(s, step, t);
        StepKeepsShut(s, step, t);
      }
    }
  }

  lemma ThreadKept(ss: seq<State>, t: nat)
    requires Run(ss)
    ensures ThreadInv(ss[|ss| - 1], t)
  {
    RunKeepsInv(ss);
  }

  /** No call is lost, repeated or reordered within a thread: executed, queued, in flight. */
  lemma CallsKeepOrder(ss: seq<State>, t: nat)
    requires Run(ss)
    ensures
      var s := ss[|ss| - 1];
      Calls(s.accepted, t) == Calls(s.log, t) + Calls(s.jobs, t) + Pending(s, t)
  {
    ThreadKept(ss, t);
  }

  /** A shutdown among the first of some calls is the last of all of them. */
  lemma ShutEnds(all: seq<Job>, first: seq<Job>, more: seq<Job>, k: nat)
    requires all == first + more && ShutLast(all) && k < |first| && first[k].ShutJob?
    ensures k == |first| - 1 && first == all
    ensures forall i :: 0 <= i < |first| - 1 ==> first[i].SendJob?
  {
    assert all[k] == first[k];
    assert more == [];
  }

  /**
   Once a thread's shutdownInLoop has executed, everything that thread got accepted has
   executed before it: its calls in the log are all its accepted calls, sends first and
   the one shutdown last.
   */
  lemma SendsPrecedeShutdown(ss: seq<State>, t: nat)
    requires Run(ss) && ShutJob(t) in ss[|ss| - 1].log
    ensures
      var s := ss[|ss| - 1];
      var calls := Calls(s.log, t);
      && calls == Calls(s.accepted, t)
      && calls != [] && calls[|calls| - 1] == ShutJob(t)
      && forall i :: 0 <= i < |calls| - 1 ==> calls[i].SendJob?
  {
    ThreadKept(ss, t);
    var s := ss[|ss| - 1];
    CallsHold(s.log, t, ShutJob(t));
    var calls := Calls(s.log, t);
    var k :| 0 <= k < |calls| && calls[k] == ShutJob(t);
    Assoc(calls, Calls(s.jobs, t), Pending(s, t));
    ShutEnds(Calls(s.accepted, t), calls, Calls(s.jobs, t) + Pending(s, t), k);
  }

  /** After its shutdown() has been accepted, no send and no shutdown of that thread is. */
  lemma NothingAcceptedAfterShutdown(ss: seq<State>, t: nat, data: nat)
    requires Run(ss) && ShutJob(t) in ss[|ss| - 1].accepted && t !in ss[|ss| - 1].pcs
    ensures Apply(ss[|ss| - 1], SendTest(t, data)) == ss[|ss| - 1]
    ensures Apply(ss[|ss| - 1], ShutTest(t)) == ss[|ss| - 1]
  {
    ThreadKept(ss, t);
  }

  lemma Extend(ss: seq<State>, step: Step) returns (ss': seq<State>)
    requires Run(ss) && Enabled(ss[|ss| - 1], step)
    ensures Run(ss') && ss' == ss + [Apply(ss[|ss| - 1], step)]
  {
    ss' := ss + [Apply(ss[|ss| - 1], step)];
    forall i | 0 < i < |ss'| ensures StepAt(ss', i) {
      if i < |ss| { assert StepAt(ss, i) && ss'[i - 1] == ss[i - 1] && ss'[i] == ss[i]; }
    }
  }

  /**
   The part of `TcpConnection` that send and shutdown use, updated in place by whole calls.
   Its trace is a run of the machine, so the theorems above hold of the object.
   */
  class Outbound {
    var state: ConnState
    var queue: seq<Job>  // closures in the loop's queue
    var done: seq<Job>   // sendInLoop and shutdownInLoop executed
    ghost var trace: seq<State>

    ghost function View(): State
      reads this
      requires trace != []
    {
      trace[|trace| - 1]
    }

    ghost predicate Valid()
      reads this
    {
      Run(trace) && View().state == state && View().jobs == queue && View().log == done
    }

    /** What thread t got accepted so far, in order. */
    ghost function AcceptedFrom(t: nat): seq<Job>
      reads this
      requires Valid()
    {
      Calls(View().accepted, t)
    }

    constructor ()
      ensures Valid() && trace == [Start()]
    {
      state, queue, done := Connecting, [], [];
      trace := [Start()];
    }

    ghost method Advance(step: Step)
      requires Run(trace) && Enabled(View(), step)
      modifies `trace
      ensures Run(trace) && trace == old(trace) + [Apply(old(View()), step)]
    {
      trace := Extend(trace, step);
    }

    method Established()
      requires Valid() && state == Connecting
      modifies this
      ensures Valid() && old(trace) <= trace && state == Connected
      ensures queue == old(queue) && done == old(done) && View().pcs == old(View()).pcs
    {
      state := Connected;
      Advance(Establish);
    }

    method Closed()
      requires Valid()
      modifies this
      ensures Valid() && old(trace) <= trace && state == Disconnected
      ensures queue == old(queue) && done == old(done) && View().pcs == old(View()).pcs
    {
      state := Disconnected;
      Advance(Close);
    }

    /** postInLoop: at once on the loop's own thread, through its queue elsewhere. */
    method PostInLoop(job: Job)
      requires Valid() && Enabled(View(), Go(job.from)) && InFlight(job.from, View().pcs[job.from]) == job
      modifies this
      ensures Valid() && trace == old(trace) + [Apply(old(View()), Go(job.from))]
    {
      if job.from == LOOP {
        done := done + [job];
      } else {
        queue := queue + [job];
      }
      Advance(Go(job.from));
    }

    /**
     The call is accepted exactly if connected; whatever was accepted from this thread has
     been executed or queued, in order; after its shutdown() nothing is.
     */
    method Send(t: nat, data: nat)
      requires Valid() && t !in View().pcs
      modifies this
      ensures Valid() && old(trace) <= trace && t !in View().pcs && state == old(state)
      ensures AcceptedFrom(t) == old(AcceptedFrom(t)) + (if old(state).Connected? then [SendJob(t, data)] else [])
      ensures Calls(done, t) + Calls(queue, t) == AcceptedFrom(t)
      ensures done == old(done) + (if old(state).Connected? && t == LOOP then [SendJob(t, data)] else [])
      ensures queue == old(queue) + (if old(state).Connected? && t != LOOP then [SendJob(t, data)] else [])
      ensures ShutJob(t) in old(View()).accepted ==> queue == old(queue) && done == old(done)
    {
      if ShutJob(t) in View().accepted {
        NothingAcceptedAfterShutdown(trace, t, data);
      }
      CallsSnoc(View().accepted, SendJob(t, data), t);
      Advance(SendTest(t, data));
      if state == Connected {
        PostInLoop(SendJob(t, data));
      }
      AllHandedOver(t);
    }

    /** shutdown() on a thread that nobody interrupts. */
    method Shutdown(t: nat)
      requires Valid() && t !in View().pcs
      modifies this
      ensures Valid() && old(trace) <= trace && t !in View().pcs
      ensures state == if old(state).Connected? then Disconnecting else old(state)
      ensures AcceptedFrom(t) == old(AcceptedFrom(t)) + (if old(state).Connected? then [ShutJob(t)] else [])
      ensures Calls(done, t) + Calls(queue, t) == AcceptedFrom(t)
      ensures done == old(done) + (if old(state).Connected? && t == LOOP then [ShutJob(t)] else [])
      ensures queue == old(queue) + (if old(state).Connected? && t != LOOP then [ShutJob(t)] else [])
      ensures ShutJob(t) in old(View()).accepted ==> queue == old(queue) && done == old(done)
    {
      if ShutJob(t) in View().accepted {
        NothingAcceptedAfterShutdown(trace, t, 0);
      }
      ghost var accepted := View().accepted;
      CallsSnoc(accepted, ShutJob(t), t);
      Advance(ShutTest(t));
      assert View().accepted == accepted + (if state.Connected? then [ShutJob(t)] else []);
      if state == Connected {
        state := Disconnecting;
        Advance(ShutStore(t));
        PostInLoop(ShutJob(t));
      }
      AllHandedOver(t);
    }

    lemma AllHandedOver(t: nat)
      requires Valid() && t !in View().pcs
      ensures Calls(done, t) + Calls(queue, t) == AcceptedFrom(t)
    {
      CallsKeepOrder(trace, t);
    }

    /** The loop's thread runs its queue: all of it is executed, in order. */
    method RunQueue()
      requires Valid() && LOOP !in View().pcs
      modifies this
      ensures Valid() && old(trace) <= trace && View().pcs == old(View()).pcs
      ensures queue == [] && done == old(done) + old(queue) && state == old(state)
    {
      while queue != []
        invariant Valid() && old(trace) <= trace && View().pcs == old(View()).pcs
        invariant done + queue == old(done) + old(queue) && state == old(state)
        decreases |queue|
      {
        assert queue == [queue[0]] + queue[1..];
        queue, done := queue[1..], done + [queue[0]];
        Advance(RunJob);
      }
    }
  }
}
