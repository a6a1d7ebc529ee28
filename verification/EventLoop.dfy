/**
 `EventLoop` as written (Netmux/reactor/EventLoop.cc): the methods run on one thread at a
 time and update the fields in place, and each statement that touches shared state is
 matched with one step of `EventLoopProtocol`.  The ghost trace is therefore a run of the
 protocol, so every theorem about runs holds of the object.
 */
module EventLoops {
  import opened EventLoopProtocol
  import Pollers
  import Registration

  lemma Shift<T>(a: seq<T>, x: T, b: seq<T>)
    ensures (a + [x]) + b == a + ([x] + b)
  {
  }

  class EventLoop {
    const poller: Pollers.EPollPoller
    const wakeupChannel: Pollers.Channel
    const body: Program
    ghost const cost: TaskId -> nat

    var quit: bool
    var callingPendingFunctors: bool
    var pendingFunctors: seq<Entry>
    var wakeupCount: nat  // the counter behind wakeupFd_

    ghost var trace: seq<State>

    ghost function View(): State
      reads this
      requires trace != []
    {
      trace[|trace| - 1]
    }

    ghost predicate Valid()
      reads this
    {
      && Terminating(body, cost)
      && RunFromStart(body, trace)
      && View().quit == quit
      && View().calling == callingPendingFunctors
      && View().pending == pendingFunctors
      && View().efd == wakeupCount
    }

    /** The loop thread is ready for the first action of `todo`. */
    ghost predicate AboutToRun(todo: seq<Action>)
      reads this
      requires trace != []
    {
      View().todo == todo && !View().inQueue
    }

    /** A new loop, its wake-up channel registered for reading with its own poller. */
    constructor (wakeupFd: int, body: Program, ghost cost: TaskId -> nat)
      requires Terminating(body, cost)
      ensures Valid() && trace == [Start()]
      ensures this.body == body && this.cost == cost
      ensures fresh(poller) && fresh(wakeupChannel) && wakeupChannel.fd == wakeupFd
      ensures poller.Valid() && poller.channels == {wakeupChannel}
      ensures
        var reg := poller.View(wakeupChannel);
        reg.kernel == Registration.Present(Registration.READ_EVENT) && Registration.Mirror(reg)
    {
      this.body := body;
      this.cost := cost;
      quit, callingPendingFunctors, pendingFunctors, wakeupCount := false, false, [], 0;
      trace := [Start()];
      var channel := new Pollers.Channel(wakeupFd);
      var own := new Pollers.EPollPoller({channel}, map[wakeupFd := channel]);
      wakeupChannel, poller := channel, own;
      new;
      channel.Change(Registration.EnableReading, own);
    }

    ghost method Advance(step: Step)
      requires RunFromStart(body, trace) && Enabled(View(), step)
      modifies `trace
      ensures RunFromStart(body, trace)
      ensures trace == old(trace) + [Apply(body, old(View()), step)]
    {
      trace := Extend(body, trace, step);
    }

    /** The loop thread, were it to block now, could return from poll at once. */
    ghost predicate PollReturns()
      reads this
      requires trace != []
    {
      Enabled(View().(pc := Polling), PollReturn([WakeupRead]))
    }

    /**
     The step of the protocol that writes a wake-up, of a foreign thread or of the loop
     thread during a batch.  Even a write that fails leaves the loop unable to sleep.
     */
    method Wakeup(ghost step: Step)
      requires Valid() && Enabled(View(), step)
      requires step.ForeignWake? || (step.FinishQueue? && callingPendingFunctors)
      modifies this
      ensures Valid() && trace == old(trace) + [Apply(body, old(View()), step)]
      ensures PollReturns()
    {
      if wakeupCount < EVENTFD_MAX {
        wakeupCount := wakeupCount + 1;
      }
      Advance(step);
    }

    /**
     The wake-up channel's handler: however many wake-ups were written, one read takes them
     all, so only a later one lets poll return; what they announced is still queued.
     */
    method HandleRead(ghost rest: seq<Handler>)
      requires Valid() && View().pc == Dispatching([WakeupRead] + rest) && AboutToRun([])
      modifies this
      ensures Valid() && old(trace) <= trace
      ensures View().pc == Dispatching(rest) && AboutToRun([])
      ensures !PollReturns()
      ensures pendingFunctors == old(pendingFunctors) && View().executed == old(View()).executed
    {
      wakeupCount := 0;
      Advance(NextHandler);
      assert ([WakeupRead] + rest)[1..] == rest;
    }

    /** The functor is appended; a wake-up is written unless the loop thread is sure to look. */
    method QueueInLoop(caller: Caller, task: TaskId)
      requires Valid()
      requires caller == LoopThread ==> View().todo != [] && View().todo[0] == Queue(task) && !View().inQueue
      requires caller.Foreign? ==> caller.tid !in View().owing
      modifies this
      ensures Valid() && old(trace) <= trace
      ensures pendingFunctors == old(pendingFunctors) + [Entry(caller, task)]
      ensures wakeupCount == if caller.Foreign? || callingPendingFunctors
                             then Written(old(wakeupCount)) else old(wakeupCount)
      ensures callingPendingFunctors == old(callingPendingFunctors)
      ensures View().pc == old(View().pc) && View().executed == old(View().executed)
      ensures caller == LoopThread ==> AboutToRun(old(View()).todo[1..])
      ensures caller.Foreign? ==> AboutToRun(old(View()).todo) || old(View().inQueue)
    {
      pendingFunctors := pendingFunctors + [Entry(caller, task)];
      match caller {
        case LoopThread => Advance(Act);
        case Foreign(tid) => Advance(ForeignPush(tid, task));
      }
      if caller != LoopThread || callingPendingFunctors {
        Wakeup(if caller == LoopThread then FinishQueue else ForeignWake(caller.tid));
      } else {
        Advance(FinishQueue);
      }
    }

    method Quit(caller: Caller)
      requires Valid()
      requires caller == LoopThread ==> View().todo != [] && View().todo[0].Quit? && !View().inQueue
      requires caller.Foreign? ==> caller.tid !in View().owing
      modifies this
      ensures Valid() && old(trace) <= trace
      ensures quit && pendingFunctors == old(pendingFunctors)
      ensures wakeupCount == if caller.Foreign? then Written(old(wakeupCount)) else old(wakeupCount)
      ensures View().pc == old(View().pc) && View().executed == old(View().executed)
      ensures caller == LoopThread ==> AboutToRun(old(View()).todo[1..])
    {
      quit := true;
      match caller {
        case LoopThread =>
          Advance(Act);
        case Foreign(tid) =>
          Advance(ForeignQuit(tid));
          Wakeup(ForeignWake(tid));
      }
    }

    /** Execute a handler's or functor's body; postInLoop on this thread calls straight away. */
    method Execute(actions: seq<Action>)
      requires Valid() && AboutToRun(actions)
      modifies this
      ensures Valid() && old(trace) <= trace && AboutToRun([])
      ensures View().pc == old(View().pc) && View().executed == old(View().executed)
      ensures pendingFunctors == old(pendingFunctors) + Requests(body, cost, actions)
    {
      var todo := actions;
      while todo != []
        invariant Valid() && old(trace) <= trace && AboutToRun(todo)
        invariant View().pc == old(View().pc) && View().executed == old(View().executed)
        invariant pendingFunctors + Requests(body, cost, todo)
                  == old(pendingFunctors) + Requests(body, cost, actions)
        decreases BodyCost(cost, todo)
      {
        match todo[0] {
          case Queue(t) =>
            QueueInLoop(LoopThread, t);
            todo := todo[1..];
          case Post(t) =>
            Advance(Act);
            BodyCostAppend(cost, body(t), todo[1..]);
            assert BodyCost(cost, body(t)) <= cost(t);
            todo := body(t) + todo[1..];
          case Quit =>
            Quit(LoopThread);
            todo := todo[1..];
          case Local =>
            Advance(Act);
            todo := todo[1..];
        }
      }
    }

    /** The for loop over the swapped-out functors. */
    method RunBatch(functors: seq<Entry>)
      requires Valid() && View().pc == Running(functors) && AboutToRun([])
      modifies this
      ensures Valid() && old(trace) <= trace
      ensures View().pc == Running([]) && AboutToRun([])
      ensures View().executed == old(View().executed) + functors
      ensures pendingFunctors == old(pendingFunctors) + BatchRequests(body, cost, functors)
    {
      ghost var executed, pending := View().executed, pendingFunctors;
      ghost var all := BatchRequests(body, cost, functors);
      var rest := functors;
      while rest != []
        invariant Valid() && old(trace) <= trace
        invariant View().pc == Running(rest) && AboutToRun([])
        invariant View().executed + rest == executed + functors
        invariant pendingFunctors + BatchRequests(body, cost, rest) == pending + all
      {
        ghost var done, queued := View().executed, pendingFunctors;
        RunFirst(rest);
        assert rest == [rest[0]] + rest[1..];
        Shift(done, rest[0], rest[1..]);
        Regroup(queued, Requests(body, cost, body(rest[0].task)), BatchRequests(body, cost, rest[1..]));
        rest := rest[1..];
      }
    }

    /** One turn of that loop. */
    method RunFirst(rest: seq<Entry>)
      requires Valid() && rest != [] && View().pc == Running(rest) && AboutToRun([])
      modifies this
      ensures Valid() && old(trace) <= trace
      ensures View().pc == Running(rest[1..]) && AboutToRun([])
      ensures View().executed == old(View().executed) + [rest[0]]
      ensures pendingFunctors == old(pendingFunctors) + Requests(body, cost, body(rest[0].task))
    {
      Advance(NextFunctor);
      Execute(body(rest[0].task));
    }

    /** The flag raised, and the vectors swapped under the mutex. */
    method SwapOut() returns (functors: seq<Entry>)
      requires Valid() && View().pc == Dispatching([]) && AboutToRun([])
      modifies this
      ensures Valid() && old(trace) <= trace
      ensures View().pc == Running(functors) && AboutToRun([])
      ensures functors == old(pendingFunctors) && pendingFunctors == []
      ensures View().executed == old(View()).executed
    {
      functors := [];
      callingPendingFunctors := true;
      Advance(RaiseCalling);
      functors, pendingFunctors := pendingFunctors, functors;
      Advance(Swap);
    }

    /**
     Raise the flag, swap the queue out under the mutex, run the batch, lower the flag.
     Exactly the functors pending on entry are executed, in order; what they queue is
     left for the next batch.
     */
    method DoPendingFunctors()
      requires Valid() && View().pc == Dispatching([]) && !Busy(View())
      modifies this
      ensures Valid() && old(trace) <= trace
      ensures View().pc.CheckQuit? && !Busy(View()) && !callingPendingFunctors
      ensures View().executed == old(View().executed) + old(pendingFunctors)
      ensures pendingFunctors == BatchRequests(body, cost, old(pendingFunctors))
    {
      var functors := SwapOut();
      ghost var executed, requests := View().executed, BatchRequests(body, cost, functors);
      RunBatch(functors);
      assert View().executed == executed + functors;
      assert pendingFunctors == [] + requests == requests;
      callingPendingFunctors := false;
      Advance(LowerCalling);
    }

    /** One turn of the for loop over the active channels. */
    method HandleFirst(rest: seq<Handler>)
      requires Valid() && rest != [] && View().pc == Dispatching(rest) && AboutToRun([])
      modifies this
      ensures Valid() && old(trace) <= trace
      ensures View().pc == Dispatching(rest[1..]) && AboutToRun([])
      ensures View().executed == old(View().executed)
      ensures pendingFunctors == old(pendingFunctors)
                                 + (if rest[0].User? then Requests(body, cost, rest[0].body) else [])
    {
      match rest[0] {
        case WakeupRead =>
          assert rest == [WakeupRead] + rest[1..];
          HandleRead(rest[1..]);
        case User(actions) =>
          Advance(NextHandler);
          Execute(actions);
      }
    }

    /** That loop: the handlers run in order, and the queue grows by exactly what they request. */
    method DispatchAll(ready: seq<Handler>)
      requires Valid() && View().pc == Dispatching(ready) && AboutToRun([])
      modifies this
      ensures Valid() && old(trace) <= trace
      ensures View().pc == Dispatching([]) && AboutToRun([])
      ensures View().executed == old(View().executed)
      ensures pendingFunctors == old(pendingFunctors) + HandlerRequests(body, cost, ready)
    {
      ghost var executed, pending := View().executed, pendingFunctors;
      ghost var all := HandlerRequests(body, cost, ready);
      var rest := ready;
      while rest != []
        invariant Valid() && old(trace) <= trace
        invariant View().pc == Dispatching(rest) && AboutToRun([])
        invariant View().executed == executed
        invariant pendingFunctors + HandlerRequests(body, cost, rest) == pending + all
      {
        ghost var queued := pendingFunctors;
        HandleFirst(rest);
        Regroup(queued, if rest[0].User? then Requests(body, cost, rest[0].body) else [],
                HandlerRequests(body, cost, rest[1..]));
        rest := rest[1..];
      }
    }

    /**
     One turn of the while loop of loop(), for whatever epoll_wait reports: what was pending
     and then what the handlers queue is executed, all of it, and what that queues is left.
     */
    method Turn(ready: seq<Handler>)
      requires Valid() && View().pc.CheckQuit? && !Busy(View()) && !quit && ready != []
      requires WakeupRead in ready ==> wakeupCount > 0
      modifies this
      ensures Valid() && old(trace) <= trace
      ensures View().pc.CheckQuit? && !Busy(View())
      ensures
        var batch := old(pendingFunctors) + HandlerRequests(body, cost, ready);
        && View().executed == old(View().executed) + batch
        && pendingFunctors == BatchRequests(body, cost, batch)
    {
      Advance(TestQuit);
      Advance(PollReturn(ready));
      DispatchAll(ready);
      DoPendingFunctors();
    }
  }
}
