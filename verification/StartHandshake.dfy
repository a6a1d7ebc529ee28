/**
 `EventLoopThread::startLoop` and `threadFunc` (Netmux/reactor/EventLoopThread.cc): the
 parent starts a thread and waits, under a mutex and condition variable, for the loop
 that the child builds on its own stack and publishes.
 */
module StartHandshake {

  datatype Ptr = Null | ChildLoop

  datatype ParentPc =
    | Testing             // holding the lock, at line 28
    | Waiting             // inside cond_.wait
    | Captured(loop: Ptr) // past line 31, lock released, before line 33
    | Returned(loop: Ptr)

  datatype ChildPc =
    | Building     // line 40
    | Initialising // line 41: the init callback
    | Publishing   // before lines 46-48
    | Looping      // line 50
    | Retiring     // loop() has returned, before line 52
    | Gone         // the stack-local loop is destroyed

  datatype State = State(
    parent: ParentPc,
    child: ChildPc,
    loop: Ptr,          // loop_
    initDone: bool,
    exitedEarly: bool   // history: loop_ was cleared before startLoop had returned
  )

  function Start(): State {
    State(Testing, Building, Null, false, false)
  }

  datatype Step =
    | Test | SpuriousWake | Return
    | Build | Initialise | Publish | Quit | Retire

  predicate Enabled(s: State, step: Step) {
    match step
    case Test => s.parent.Testing?
    case SpuriousWake => s.parent.Waiting?
    case Return => s.parent.Captured?
    case Build => s.child.Building?
    case Initialise => s.child.Initialising?
    case Publish => s.child.Publishing?
    case Quit => s.child.Looping?
    case Retire => s.child.Retiring?
  }

  function Apply(s: State, step: Step): State
    requires Enabled(s, step)
  {
    match step
    case Test => s.(parent := if s.loop.Null? then Waiting else Captured(s.loop))
    case SpuriousWake => s.(parent := Testing)
    case Return => s.(parent := Returned(s.loop))  // the field, not the local
    case Build => s.(child := Initialising)
    case Initialise => s.(child := Publishing, initDone := true)
    case Publish =>
      s.(child := Looping, loop := ChildLoop, parent := if s.parent.Waiting? then Testing else s.parent)
    case Quit => s.(child := Retiring)
    case Retire =>
      s.(child := Gone, loop := Null, exitedEarly := s.exitedEarly || !s.parent.Returned?)
  }

  ghost predicate Next(s: State, s': State) {
    exists step: Step :: Enabled(s, step) && s' == Apply(s, step)
  }

  ghost predicate StepAt(ss: seq<State>, i: int)
    requires 0 < i < |ss|
  {
    Next(ss[i - 1], ss[i])
  }

  ghost predicate Run(ss: seq<State>) {
    && ss != [] && ss[0] == Start()
    && forall i :: 0 < i < |ss| ==> StepAt(ss, i)
  }

  lemma RunFront(ss: seq<State>)
    requires Run(ss) && |ss| > 1
    ensures Run(ss[..|ss| - 1]) && Next(ss[|ss| - 2], ss[|ss| - 1])
  {
    var front := ss[..|ss| - 1];
    forall i | 0 < i < |front| ensures StepAt(front, i) {
      assert StepAt(ss, i);
    }
    assert StepAt(ss, |ss| - 1);
  }

  predicate Alive(s: State) {
    !s.child.Building? && !s.child.Gone?
  }

  predicate Inv(s: State) {
    && (s.loop.ChildLoop? <==> s.child.Looping? || s.child.Retiring?)
    && (s.initDone <==> !s.child.Building? && !s.child.Initialising?)
    && (s.parent.Waiting? ==> s.loop.Null?)
    && (s.parent.Captured? ==> s.parent.loop.ChildLoop? && (s.loop.ChildLoop? || s.child.Gone?))
    && (s.child.Gone? && !s.parent.Returned? ==> s.exitedEarly)
    && (s.parent.Returned? ==> s.initDone && (s.parent.loop.Null? ==> s.exitedEarly))
    && (s.exitedEarly ==> s.child.Gone?)
  }

  lemma {:induction false} RunKeepsInv(ss: seq<State>)
    requires Run(ss)
    ensures Inv(ss[|ss| - 1])
  {
    if |ss| > 1 {
      var front := ss[..|ss| - 1];
      RunFront(ss);
      RunKeepsInv(front);
      assert Next(ss[|ss| - 2], ss[|ss| - 1]);
    }
  }

  /**
   Publication.  In every interleaving, spurious wake-ups included: a published loop is
   alive with its init callback run, the parent does not sleep on it, and the pointer
   captured under the lock is never null.
   */
  lemma PublishedIsUsable(ss: seq<State>)
    requires Run(ss)
    ensures
      var s := ss[|ss| - 1];
      && (s.loop.ChildLoop? ==> Alive(s) && s.initDone && !s.parent.Waiting?)
      && (s.parent.Captured? ==> s.parent.loop.ChildLoop? && s.initDone)
  {
    RunKeepsInv(ss);
  }

  /** The parent sleeps and no step of the child can end it. */
  predicate Stranded(s: State) {
    (s.parent.Waiting? || s.parent.Testing?) && s.child.Gone?
  }

  /**
   startLoop fails exactly when the child's loop ended before startLoop had returned: then,
   and only then, the parent is stranded or is on its way to the null it returns.
   */
  lemma StartFailsExactlyOnEarlyExit(ss: seq<State>)
    requires Run(ss)
    ensures
      var s := ss[|ss| - 1];
      s.exitedEarly
      <==> Stranded(s)
           || (s.parent.Captured? && s.loop.Null?)
           || (s.parent.Returned? && s.parent.loop.Null?)
    ensures
      var s := ss[|ss| - 1];
      s.parent.Returned? && !s.exitedEarly ==> s.parent.loop.ChildLoop? && s.initDone
  {
    RunKeepsInv(ss);
    EarlyExitShows(ss);
  }

  /** The fate of an early exit is sealed: it never turns into a non-null result. */
  lemma {:induction false} EarlyExitShows(ss: seq<State>)
    requires Run(ss)
    ensures
      var s := ss[|ss| - 1];
      s.exitedEarly ==> !(s.parent.Returned? && s.parent.loop.ChildLoop?)
  {
    if |ss| > 1 {
      var front := ss[..|ss| - 1];
      RunFront(ss);
      EarlyExitShows(front);
      RunKeepsInv(front);
      assert Next(ss[|ss| - 2], ss[|ss| - 1]);
    }
  }

  lemma Extend(ss: seq<State>, step: Step) returns (ss': seq<State>)
    requires Run(ss) && Enabled(ss[|ss| - 1], step)
    ensures Run(ss') && ss' == ss + [Apply(ss[|ss| - 1], step)]
  {
    ss' := ss + [Apply(ss[|ss| - 1], step)];
    forall i | 0 < i < |ss'| ensures StepAt(ss', i) {
      if i < |ss| { assert StepAt(ss, i) && ss'[i - 1] == ss[i - 1] && ss'[i] == ss[i]; }
    }
  }

  /** Both failures happen: a parent asleep for ever, and a null from the unlocked read. */
  lemma EarlyExitIsReachable() returns (stranded: seq<State>, nulled: seq<State>)
    ensures Run(stranded) && stranded[|stranded| - 1].parent.Waiting? && stranded[|stranded| - 1].child.Gone?
    ensures Run(nulled) && nulled[|nulled| - 1].parent == Returned(Null)
  {
    var ss := [Start()];
    ss := Extend(ss, Build);
    ss := Extend(ss, Initialise);
    ss := Extend(ss, Publish);
    ss := Extend(ss, Quit);
    stranded := Extend(ss, Retire);
    stranded := Extend(stranded, Test);
    nulled := Extend(ss, Test);
    nulled := Extend(nulled, Retire);
    nulled := Extend(nulled, Return);
  }
}
