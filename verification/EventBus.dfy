/**
 The event bus of NPtest/loop/EventLoopExample.cpp: any number of emitting threads, one
 consumer in loop(), a queue under a mutex and a condition variable.  Handlers are
 registered before loop() starts.  A callback may itself emit.
 */
module EventBus {
  type Callback = nat

  datatype Message = Message(name: string, data: int)

  /** Who called emit: a thread, or a callback on the consumer's own thread. */
  datatype Emitter = Thread(tid: nat) | Consumer

  /** A queued message; the code does not record who emitted it. */
  datatype Event = Event(name: string, data: int, from: Emitter)

  const EXIT: string := "EXIT"

  /** One callback invocation. */
  datatype Call = Call(callback: Callback, data: int)

  /** `handlers` is handlers_, `emits` what each invocation emits, in order. */
  datatype Bus = Bus(handlers: string -> seq<Callback>, emits: Call -> seq<Message>)

  datatype Pc =
    | Checking  // about to take the lock and test the wait predicate
    | Sleeping  // inside cv_.wait, lock released
    | Handling(event: Event, rest: seq<Callback>, toEmit: seq<Message>, owesNotify: bool)
    | Done

  datatype State = State(
    pc: Pc,
    q: seq<Event>,
    owing: set<nat>,        // emitting threads between the push and notify_one
    // history
    emitted: seq<Event>,    // pushes, in lock order
    processed: seq<Event>,  // pops
    trace: seq<Call>        // callbacks invoked
  )

  function Start(): State {
    State(Checking, [], {}, [], [], [])
  }

  datatype Step =
    | EmitPush(tid: nat, message: Message)
    | EmitNotify(tid: nat)
    | SpuriousWake
    | Check            // lines 47-52
    | NextCallback     // line 55
    | SelfPush         // emit called by a callback
    | SelfNotify
    | EndEvent         // line 57

  predicate Enabled(s: State, step: Step) {
    match step
    case EmitPush(tid, _) => tid !in s.owing
    case EmitNotify(tid) => tid in s.owing
    case SpuriousWake => s.pc.Sleeping?
    case Check => s.pc.Checking?
    case NextCallback => s.pc.Handling? && s.pc.toEmit == [] && !s.pc.owesNotify && s.pc.rest != []
    case SelfPush => s.pc.Handling? && s.pc.toEmit != [] && !s.pc.owesNotify
    case SelfNotify => s.pc.Handling? && s.pc.owesNotify
    case EndEvent => s.pc.Handling? && s.pc.toEmit == [] && !s.pc.owesNotify && s.pc.rest == []
  }

  function Push(s: State, m: Message, from: Emitter): State {
    var event := Event(m.name, m.data, from);
    s.(q := s.q + [event], emitted := s.emitted + [event])
  }

  function Apply(b: Bus, s: State, step: Step): State
    requires Enabled(s, step)
  {
    match step
    case EmitPush(tid, message) => Push(s, message, Thread(tid)).(owing := s.owing + {tid})
    case EmitNotify(tid) =>
      s.(owing := s.owing - {tid}, pc := if s.pc.Sleeping? then Checking else s.pc)
    case SpuriousWake => s.(pc := Checking)
    case Check =>
      if s.q == [] then s.(pc := Sleeping)
      else s.(pc := Handling(s.q[0], b.handlers(s.q[0].name), [], false),
              q := s.q[1..],
              processed := s.processed + [s.q[0]])
    case NextCallback =>
      var call := Call(s.pc.rest[0], s.pc.event.data);
      s.(pc := s.pc.(rest := s.pc.rest[1..], toEmit := b.emits(call)), trace := s.trace + [call])
    case SelfPush =>
      Push(s, s.pc.toEmit[0], Consumer).(pc := s.pc.(toEmit := s.pc.toEmit[1..], owesNotify := true))
    case SelfNotify => s.(pc := s.pc.(owesNotify := false))
    case EndEvent => s.(pc := if s.pc.event.name == EXIT then Done else Checking)
  }

  ghost predicate Next(b: Bus, s: State, s': State) {
    exists step: Step :: Enabled(s, step) && s' == Apply(b, s, step)
  }

  ghost predicate StepAt(b: Bus, ss: seq<State>, i: int)
    requires 0 < i < |ss|
  {
    Next(b, ss[i - 1], ss[i])
  }

  ghost predicate Run(b: Bus, ss: seq<State>) {
    && ss != [] && ss[0] == Start()
    && forall i :: 0 < i < |ss| ==> StepAt(b, ss, i)
  }

  lemma RunFront(b: Bus, ss: seq<State>)
    requires Run(b, ss) && |ss| > 1
    ensures Run(b, ss[..|ss| - 1]) && Next(b, ss[|ss| - 2], ss[|ss| - 1])
  {
    var front := ss[..|ss| - 1];
    forall i | 0 < i < |front| ensures StepAt(b, front, i) {
      assert StepAt(b, ss, i);
    }
    assert StepAt(b, ss, |ss| - 1);
  }

  // -------------------------------------------------------------- specification

  /** The invocations one event gives rise to: its handlers in registration order. */
  function Invoke(callbacks: seq<Callback>, data: int): seq<Call> {
    if callbacks == [] then [] else [Call(callbacks[0], data)] + Invoke(callbacks[1..], data)
  }

  lemma {:induction false} InvokeInOrder(callbacks: seq<Callback>, data: int)
    ensures |Invoke(callbacks, data)| == |callbacks|
    ensures forall k :: 0 <= k < |callbacks| ==> Invoke(callbacks, data)[k] == Call(callbacks[k], data)
  {
    if callbacks != [] {
      InvokeInOrder(callbacks[1..], data);
    }
  }

  function Flatten(b: Bus, events: seq<Event>): seq<Call> {
    if events == [] then []
    else Invoke(b.handlers(events[0].name), events[0].data) + Flatten(b, events[1..])
  }

  /** The events up to and including the first EXIT. */
  function UpToExit(events: seq<Event>): seq<Event> {
    if events == [] then []
    else if events[0].name == EXIT then [events[0]]
    else [events[0]] + UpToExit(events[1..])
  }

  lemma {:induction false} FlattenAppend(b: Bus, a: seq<Event>, c: seq<Event>)
    ensures Flatten(b, a + c) == Flatten(b, a) + Flatten(b, c)
  {
    if a == [] {
      assert a + c == c;
    } else {
      FlattenAppend(b, a[1..], c);
      assert (a + c)[1..] == a[1..] + c;
    }
  }

  predicate NoExit(events: seq<Event>) {
    forall i :: 0 <= i < |events| ==> events[i].name != EXIT
  }

  lemma {:induction false} UpToExitWhole(events: seq<Event>, more: seq<Event>)
    requires NoExit(events)
    ensures UpToExit(events + more) == events + UpToExit(more)
  {
    if events == [] {
      assert events + more == more;
    } else {
      UpToExitWhole(events[1..], more);
      assert (events + more)[1..] == events[1..] + more;
      assert [events[0]] + (events[1..] + UpToExit(more)) == events + UpToExit(more);
    }
  }

  // ------------------------------------------------------------------ invariant

  function Remaining(s: State): seq<Call> {
    if s.pc.Handling? then Invoke(s.pc.rest, s.pc.event.data) else []
  }

  /** Every queued event still has its notification coming. */
  predicate AllOwed(s: State) {
    forall event :: event in s.q ==> event.from.Thread? && event.from.tid in s.owing
  }

  predicate QueueInv(s: State) {
    && s.processed + s.q == s.emitted
    && (s.pc.Sleeping? ==> AllOwed(s))
  }

  predicate TraceInv(b: Bus, s: State) {
    s.trace + Remaining(s) == Flatten(b, s.processed)
  }

  predicate ExitInv(s: State) {
    if s.pc.Handling? || s.pc.Done? then
      && s.processed != []
      && (s.pc.Handling? ==> s.processed[|s.processed| - 1] == s.pc.event)
      && (s.pc.Done? ==> s.processed[|s.processed| - 1].name == EXIT)
      && NoExit(s.processed[..|s.processed| - 1])
    else
      NoExit(s.processed)
  }

  /** The messages that callbacks emitted, in lock order. */
  function SelfEmitted(events: seq<Event>): seq<Message> {
    if events == [] then [] else OwnMessage(events[0]) + SelfEmitted(events[1..])
  }

  function OwnMessage(event: Event): seq<Message> {
    if event.from.Consumer? then [Message(event.name, event.data)] else []
  }

  /** All that these invocations emit, in order. */
  function AllEmits(b: Bus, calls: seq<Call>): seq<Message> {
    if calls == [] then [] else b.emits(calls[0]) + AllEmits(b, calls[1..])
  }

  function ToEmit(s: State): seq<Message> {
    if s.pc.Handling? then s.pc.toEmit else []
  }

  predicate EmitInv(b: Bus, s: State) {
    SelfEmitted(s.emitted) + ToEmit(s) == AllEmits(b, s.trace)
  }

  predicate Inv(b: Bus, s: State) {
    QueueInv(s) && TraceInv(b, s) && ExitInv(s) && EmitInv(b, s)
  }

  lemma StepKeepsQueue(b: Bus, s: State, step: Step)
    requires QueueInv(s) && Enabled(s, step)
    ensures QueueInv(Apply(b, s, step))
  {
    if step.Check? && s.q != [] {
      assert s.processed + [s.q[0]] + s.q[1..] == s.processed + s.q;
    }
  }

  lemma Regroup<T>(a: seq<T>, x: T, b: seq<T>)
    ensures a + ([x] + b) == a + [x] + b
  {
  }

  /** The consumer takes the next event. */
  lemma CheckKeepsTrace(b: Bus, s: State)
    requires TraceInv(b, s) && s.pc.Checking? && s.q != []
    ensures TraceInv(b, Apply(b, s, Check))
  {
    var event := s.q[0];
    FlattenAppend(b, s.processed, [event]);
    assert Flatten(b, [event]) == Invoke(b.handlers(event.name), event.data) + [];
    assert s.trace + [] == s.trace;
  }

  /** ... or calls the next of its handlers. */
  lemma CallbackKeepsTrace(b: Bus, s: State)
    requires TraceInv(b, s) && Enabled(s, NextCallback)
    ensures TraceInv(b, Apply(b, s, NextCallback))
  {
    Regroup(s.trace, Call(s.pc.rest[0], s.pc.event.data), Invoke(s.pc.rest[1..], s.pc.event.data));
  }

  lemma StepKeepsTrace(b: Bus, s: State, step: Step)
    requires TraceInv(b, s) && Enabled(s, step)
    ensures TraceInv(b, Apply(b, s, step))
  {
    if step.Check? && s.q != [] {
      CheckKeepsTrace(b, s);
    } else if step.NextCallback? {
      CallbackKeepsTrace(b, s);
    }
  }

  lemma StepKeepsExit(b: Bus, s: State, step: Step)
    requires ExitInv(s) && Enabled(s, step)
    ensures ExitInv(Apply(b, s, step))
  {
    var s' := Apply(b, s, step);
    if step.Check? && s.q != [] {
      assert s'.processed[..|s'.processed| - 1] == s.processed;
    } else if step.EndEvent? {
      assert s.processed == s.processed[..|s.processed| - 1] + [s.pc.event];
    }
  }

  lemma {:induction false} SelfEmittedAppend(a: seq<Event>, c: seq<Event>)
    ensures SelfEmitted(a + c) == SelfEmitted(a) + SelfEmitted(c)
  {
    if a == [] {
      assert a + c == c;
    } else {
      SelfEmittedAppend(a[1..], c);
      assert (a + c)[0] == a[0] && (a + c)[1..] == a[1..] + c;
      Assoc(OwnMessage(a[0]), SelfEmitted(a[1..]), SelfEmitted(c));
    }
  }

  lemma {:induction false} AllEmitsAppend(b: Bus, a: seq<Call>, c: seq<Call>)
    ensures AllEmits(b, a + c) == AllEmits(b, a) + AllEmits(b, c)
    ensures forall call :: AllEmits(b, [call]) == b.emits(call)
  {
    assert forall call: Call :: [call][1..] == [];
    if a == [] {
      assert a + c == c;
    } else {
      AllEmitsAppend(b, a[1..], c);
      assert (a + c)[0] == a[0] && (a + c)[1..] == a[1..] + c;
      Assoc(b.emits(a[0]), AllEmits(b, a[1..]), AllEmits(b, c));
    }
  }

  lemma Assoc<T>(a: seq<T>, b: seq<T>, c: seq<T>)
    ensures a + (b + c) == a + b + c
  {
  }

  lemma PushedEmits(s: State, m: Message, from: Emitter)
    ensures SelfEmitted(Push(s, m, from).emitted) == SelfEmitted(s.emitted) + (if from.Consumer? then [m] else [])
  {
    var event := Event(m.name, m.data, from);
    SelfEmittedAppend(s.emitted, [event]);
    assert [event][1..] == [];
  }

  lemma CallbackKeepsEmits(b: Bus, s: State)
    requires EmitInv(b, s) && Enabled(s, NextCallback)
    ensures EmitInv(b, Apply(b, s, NextCallback))
  {
    var call := Call(s.pc.rest[0], s.pc.event.data);
    AllEmitsAppend(b, s.trace, [call]);
    assert [call][1..] == [];
    assert AllEmits(b, [call]) == b.emits(call) + [] == b.emits(call);
    assert SelfEmitted(s.emitted) + [] == SelfEmitted(s.emitted);
  }

  lemma SelfPushKeepsEmits(b: Bus, s: State)
    requires EmitInv(b, s) && Enabled(s, SelfPush)
    ensures EmitInv(b, Apply(b, s, SelfPush))
  {
    PushedEmits(s, s.pc.toEmit[0], Consumer);
    Regroup(SelfEmitted(s.emitted), s.pc.toEmit[0], s.pc.toEmit[1..]);
    assert [s.pc.toEmit[0]] + s.pc.toEmit[1..] == s.pc.toEmit;
  }

  lemma StepKeepsEmits(b: Bus, s: State, step: Step)
    requires EmitInv(b, s) && Enabled(s, step)
    ensures EmitInv(b, Apply(b, s, step))
  {
    match step
    case NextCallback => CallbackKeepsEmits(b, s);
    case SelfPush => SelfPushKeepsEmits(b, s);
    case EmitPush(tid, message) =>
      PushedEmits(s, message, Thread(tid));
      assert SelfEmitted(s.emitted) + [] == SelfEmitted(s.emitted);
    case _ =>
  }

  lemma {:induction false} RunKeepsInv(b: Bus, ss: seq<State>)
    requires Run(b, ss)
    ensures Inv(b, ss[|ss| - 1])
  {
    if |ss| > 1 {
      var front := ss[..|ss| - 1];
      RunFront(b, ss);
      RunKeepsInv(b, front);
      var s, s' := ss[|ss| - 2], ss[|ss| - 1];
      assert Next(b, s, s');
      var step :| Enabled(s, step) && s' == Apply(b, s, step);
      StepKeepsQueue(b, s, step);
      StepKeepsTrace(b, s, step);
      StepKeepsExit(b, s, step);
      StepKeepsEmits(b, s, step);
    }
  }

  // ------------------------------------------------------------- main theorems

  /** What was popped and what is queued are together everything pushed, in lock order. */
  lemma ProcessedThenQueued(b: Bus, ss: seq<State>)
    requires Run(b, ss)
    ensures ss[|ss| - 1].processed + ss[|ss| - 1].q == ss[|ss| - 1].emitted
  {
    RunKeepsInv(b, ss);
  }

  /**
   What callbacks emit.  In every interleaving the consumer's own emissions, followed by
   those its current callback has still to make, are what the invoked callbacks emit, in
   order; between callbacks they are all of it.
   */
  lemma CallbacksEmit(b: Bus, ss: seq<State>)
    requires Run(b, ss)
    ensures
      var s := ss[|ss| - 1];
      && SelfEmitted(s.emitted) + ToEmit(s) == AllEmits(b, s.trace)
      && (!s.pc.Handling? ==> SelfEmitted(s.emitted) == AllEmits(b, s.trace))
  {
    RunKeepsInv(b, ss);
    var s := ss[|ss| - 1];
    assert SelfEmitted(s.emitted) + [] == SelfEmitted(s.emitted);
  }

  /** A thread's emit puts its own message, name and data, behind all others and touches no callback. */
  lemma ThreadEmits(b: Bus, ss: seq<State>, tid: nat, m: Message)
    requires Run(b, ss) && Enabled(ss[|ss| - 1], EmitPush(tid, m))
    ensures
      var s, s' := ss[|ss| - 1], Apply(b, ss[|ss| - 1], EmitPush(tid, m));
      && s'.processed + s'.q == s.processed + s.q + [Event(m.name, m.data, Thread(tid))]
      && SelfEmitted(s'.emitted) == SelfEmitted(s.emitted) && s'.trace == s.trace && s'.pc == s.pc
  {
    var s := ss[|ss| - 1];
    PushedEmits(s, m, Thread(tid));
    assert SelfEmitted(s.emitted) + [] == SelfEmitted(s.emitted);
    Assoc(s.processed, s.q, [Event(m.name, m.data, Thread(tid))]);
  }

  /**
   The consumer never sleeps on an event whose own emitter has notified: whatever the other
   emitters are doing, every event queued while it sleeps comes from a thread that is still
   between its push and its notify_one, and never from the consumer itself.
   */
  lemma NeverLeftWaiting(b: Bus, ss: seq<State>, event: Event)
    requires Run(b, ss) && ss[|ss| - 1].pc.Sleeping? && event in ss[|ss| - 1].q
    ensures event.from.Thread? && event.from.tid in ss[|ss| - 1].owing
  {
    RunKeepsInv(b, ss);
  }

  lemma {:induction false} UpToExitPrefix(done: seq<Event>, more: seq<Event>)
    requires done != [] && NoExit(done[..|done| - 1])
    ensures done <= UpToExit(done + more)
    ensures done[|done| - 1].name == EXIT ==> UpToExit(done + more) == done
  {
    var front, last := done[..|done| - 1], done[|done| - 1];
    UpToExitWhole(front, [last] + more);
    assert done == front + [last];
    assert front + ([last] + more) == done + more;
    assert ([last] + more)[1..] == more;
    assert [last] <= UpToExit([last] + more);
  }

  /**
   Event-bus trace.  In every interleaving the callbacks invoked are a prefix of the
   handlers, in registration order, of the emitted events in emission order up to the
   first EXIT; when loop() returns they are all of them.
   */
  lemma CallbackTrace(b: Bus, ss: seq<State>)
    requires Run(b, ss)
    ensures
      var s := ss[|ss| - 1];
      && s.trace <= Flatten(b, UpToExit(s.emitted))
      && (s.pc.Done? ==> s.trace == Flatten(b, UpToExit(s.emitted)))
  {
    RunKeepsInv(b, ss);
    var s := ss[|ss| - 1];
    var all := UpToExit(s.emitted);
    if s.pc.Handling? || s.pc.Done? {
      UpToExitPrefix(s.processed, s.q);
    } else {
      UpToExitWhole(s.processed, s.q);
    }
    assert all == s.processed + all[|s.processed|..];
    FlattenAppend(b, s.processed, all[|s.processed|..]);
  }
}
