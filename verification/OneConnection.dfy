/**
 One connection of the life-cycle machine, seen by itself: its registration and state, who
 holds it, which calls are queued for it, and what its loop is doing with it.  Every step of
 `Lifecycle` is, for each connection, one of the events below, so what is kept here over all
 events is kept there over all runs.
 */
module OneConnection {
  import opened Registration
  import opened Connections

  datatype Phase = Waiting | Dispatching | Functors

  /** Serving, in the body of ~TcpServer, or destroyed. */
  datatype Server = Serving | Dying | Gone

  /**
   The counters say how often connectEstablished, handleClose and connectDestroyed have run,
   and `late` how many of the closes came after connectDestroyed; `bare`, whether a hang-up
   was ever dispatched without the input its mask asked for; `shared`, whether user code
   ever kept a pointer.
   */
  datatype Entry = Entry(
    loop: nat, conn: Conn, established: nat, closes: nat, late: nat, destroyed: nat, bare: bool, shared: bool)

  /** What its loop is executing for it: callbacks of a report, or handleClose on top of them. */
  datatype Activity = Resting | Handler(rest: seq<Callback>) | Closer(rest: seq<Callback>)

  /** connectEstablished or connectDestroyed, queued. */
  datatype Call = Up | Down

  datatype View = View(
    e: Entry,
    mapped: bool,         // in connections_
    server: Server,
    phase: Phase,         // of its loop
    reports: seq<Mask>,   // its events among those reported and not yet dispatched
    doing: Activity,
    calls: seq<Call>,     // in the queue of its loop
    removals: nat,        // removeConnectionInLoop closures in the queue of loop 0
    held: bool,           // by a closure run in the current batch of its loop
    away: bool,           // by one of loop 0, when that is another loop
    creating: bool,       // newConnection is between lines 80 and 85
    removing: bool,       // removeConnectionInLoop is between lines 94 and 96
    dropping: bool,       // ~TcpServer is between lines 40 and 41, its local pointer still there
    stuck: bool,          // loop 0's thread is inside removeConnection as written, for good
    outside: set<nat>     // threads whose user code keeps a pointer
  )

  /** Some shared pointer to the connection exists. */
  predicate Held(v: View) {
    || v.mapped || v.calls != [] || v.removals > 0 || v.held || v.away
    || !v.doing.Resting? || v.creating || v.removing || v.dropping || v.stuck || v.outside != {}
  }

  /** Without a shared pointer the connection is freed, and its descriptor closed. */
  function Settle(v: View): View {
    if Held(v) then v else v.(e := Closed(v.e))
  }

  function Closed(e: Entry): Entry {
    e.(conn := e.conn.(reg := e.conn.reg.(kernel := Absent)))
  }

  function Establish(e: Entry): Entry {
    e.(conn := ConnectEstablished(e.conn), established := e.established + 1)
  }

  function CountClose(e: Entry, conn: Conn): Entry {
    e.(conn := conn, closes := e.closes + 1, late := e.late + (if e.destroyed > 0 then 1 else 0))
  }

  function Close(e: Entry): Entry {
    CountClose(e, HandleClose(e.conn))
  }

  function Destroy(e: Entry, written: bool): Entry {
    e.(conn := ConnectDestroyed(e.conn, written), destroyed := e.destroyed + 1)
  }

  /** A report that hangs up without the input asked for. */
  predicate BareHangUp(revents: Mask, mask: Mask) {
    mask & EPOLLIN != 0 && revents & EPOLLHUP != 0 && revents & EPOLLIN == 0
  }

  datatype Event =
    | Reported(masks: seq<Mask>)  // its loop returns from poll
    | Posted                      // line 85 of TcpServer.cc
    | Taken                       // its loop turns to its report
    | Called(endOfFile: bool)     // one callback of that report
    | CloseDone                   // line 166 of TcpConnection.cc
    | HandleDone
    | DispatchDone
    | Ran                         // its loop runs the first call queued for it
    | RemovalRan                  // loop 0 runs removeConnectionInLoop up to line 94
    | RemovalDone                 // line 96
    | BatchDone
    | AwayBatchDone
    | DestructorBegun
    | Dropped                     // its turn of the destructor's loop, lines 37-40 of TcpServer.cc
    | DropDone                    // line 41: the local pointer goes
    | DestructorEnded
    | Shared(tid: nat)            // user code on thread `tid` keeps a pointer
    | Released(tid: nat)
    | ShutStored                  // line 86 of TcpConnection.cc
    | Unseen                      // a step that does not concern it

  predicate Enabled(v: View, event: Event, written: bool) {
    match event
    case Reported(masks) =>
      && v.phase.Waiting? && |masks| <= 1 && (v.e.loop == 0 ==> !v.dropping)
      && (masks != [] ==> v.e.conn.reg.kernel.Present? && Reportable(masks[0], v.e.conn.reg.kernel.mask))
    case Posted => v.creating
    case Taken => v.phase.Dispatching? && v.reports != [] && v.doing.Resting? && Held(v)
    case Called(_) => v.doing.Handler? && v.doing.rest != []
    case CloseDone => v.doing.Closer? && (v.e.loop == 0 ==> !v.stuck)
    case HandleDone => v.doing == Handler([])
    case DispatchDone => v.phase.Dispatching? && v.reports == [] && v.doing.Resting?
    case Ran => v.phase.Functors? && v.calls != []
    case RemovalRan => v.removals > 0 && !v.creating && !v.removing && !v.dropping && !v.stuck
    case RemovalDone => v.removing
    case BatchDone => v.phase.Functors?
    case AwayBatchDone => v.e.loop != 0
    case DestructorBegun => v.server.Serving?
    case Dropped =>
      && v.mapped && v.server.Dying? && !v.creating && !v.removing && !v.dropping && !v.stuck
      && (v.e.loop == 0 ==> !v.phase.Dispatching?)
    case DropDone => v.dropping
    case DestructorEnded => v.server.Dying? && !v.mapped && !v.removing
    case Shared(_) => Held(v)
    case Released(_) => true
    case ShutStored => v.e.established == 1 && v.outside != {}
    case Unseen => true
  }

  predicate Closes(callback: Callback, endOfFile: bool) {
    callback.OnClose? || (callback.OnRead? && endOfFile)
  }

  function Apply(v: View, event: Event, written: bool): View
    requires Enabled(v, event, written)
  {
    match event
    case Reported(masks) => v.(phase := Dispatching, reports := masks)
    case Posted =>
      var v' := v.(creating := false);
      if v.e.loop == 0 then v'.(e := Establish(v.e)) else v'.(calls := v.calls + [Up])
    case Taken =>
      v.(reports := v.reports[1..],
         doing := Handler(Callbacks(v.reports[0])),
         e := v.e.(bare := v.e.bare || BareHangUp(v.reports[0], v.e.conn.reg.events)))
    case Called(endOfFile) =>
      if Closes(v.doing.rest[0], endOfFile)
      then v.(e := Close(v.e), doing := Closer(v.doing.rest[1..]))
      else v.(doing := Handler(v.doing.rest[1..]))
    case CloseDone =>
      var v' := v.(doing := Handler(v.doing.rest));
      if written && v.e.loop == 0 then v.(doing := Resting, stuck := true)
      else if v.server.Gone? then v'
      else if v.e.loop != 0 then v'.(removals := v.removals + 1)
      else v'.(mapped := false, calls := v.calls + [Down])
    case HandleDone => v.(doing := Resting)
    case DispatchDone => v.(phase := Functors)
    case Ran =>
      v.(calls := v.calls[1..], held := true,
         e := if v.calls[0].Up? then Establish(v.e) else Destroy(v.e, written))
    case RemovalRan =>
      var v' := v.(removals := v.removals - 1, held := v.held || v.e.loop == 0, away := v.away || v.e.loop != 0);
      if written then v'.(stuck := true)
      else if v.server.Gone? then v'
      else v'.(mapped := false, removing := true)
    case RemovalDone => v.(removing := false, calls := v.calls + [Down])
    case BatchDone => v.(phase := Waiting, held := false)
    case AwayBatchDone => v.(away := false)
    case DestructorBegun => v.(server := Dying)
    case Dropped =>
      var v' := v.(mapped := false, dropping := true);
      if v.e.loop == 0 then v'.(e := Destroy(v.e, written)) else v'.(calls := v.calls + [Down])
    case DropDone => v.(dropping := false)
    case DestructorEnded => v.(server := Gone)
    case Shared(tid) => v.(outside := v.outside + {tid}, e := v.e.(shared := true))
    case Released(tid) => v.(outside := v.outside - {tid})
    case ShutStored => v.(e := v.e.(conn := v.e.conn.(state := Disconnecting)))
    case Unseen => v
  }

  // ------------------------------------------------------------------ invariant

  predicate AllDown(calls: seq<Call>) {
    forall i :: 0 <= i < |calls| ==> calls[i].Down?
  }

  predicate Untouched(v: View) {
    && v.e == Entry(v.e.loop, CREATED, 0, 0, 0, 0, false, v.e.shared)
    && v.removals == 0 && v.reports == [] && v.doing.Resting?
    && !v.removing && !v.held && !v.away && !v.stuck
  }

  /** connectEstablished comes first and once. */
  predicate OrderInv(v: View) {
    && v.e.established <= 1
    && (v.e.established == 0 ==>
          && Untouched(v)
          && (if v.creating then v.mapped && v.calls == []
              else v.e.loop != 0 && v.calls == if v.mapped then [Up] else [Up, Down]))
    && (v.e.established == 1 ==> !v.creating && AllDown(v.calls))
  }

  /** What belongs to which phase of its loop. */
  predicate PhaseInv(v: View) {
    && (v.reports != [] || !v.doing.Resting? ==> v.phase.Dispatching?)
    && (v.held ==> v.phase.Functors?)
    && (v.outside != {} ==> v.e.shared)
    && v.e.late <= v.e.closes && (v.e.destroyed == 0 ==> v.e.late == 0)
    && (v.e.loop == 0 ==> v.removals == 0 && !v.removing && !v.away)
  }

  /** It has left the map exactly if its connectDestroyed is queued, being queued, or has run. */
  predicate DestroyInv(v: View) {
    && (!v.mapped <==> Down in v.calls || v.removing || v.e.destroyed > 0)
    && (v.server.Gone? ==> !v.mapped && !v.removing)
  }

  /** The calls of connectDestroyed that were made, are queued, or are about to be. */
  function Destructions(v: View): nat {
    v.e.destroyed + |v.calls| + v.removals
    + (if v.removing then 1 else 0) + (if v.doing.Closer? then 1 else 0) + (if v.stuck then 1 else 0)
  }

  /** One for each handleClose while the server serves; its destructor adds at most one. */
  predicate BalanceInv(v: View) {
    && (v.e.established == 0 && v.server.Serving? ==> v.mapped)
    && (v.e.established == 1 ==>
          && (v.server.Serving? ==> Destructions(v) == v.e.closes)
          && Destructions(v) <= v.e.closes + (if v.mapped then 0 else 1))
  }

  /**
   As written, only the server's destructor lets go of it and has it destroyed.  Of a loop 0
   connection that nobody shares, the destructor's own pointer is then the last.
   */
  predicate WrittenInv(v: View) {
    && !v.removing && (v.server.Serving? ==> v.mapped)
    && (v.e.established == 1 ==> v.e.destroyed + |v.calls| + (if v.mapped then 1 else 0) <= 1)
    && (v.e.loop == 0 ==> v.calls == [] && !v.held)
    && (v.e.loop == 0 && v.e.destroyed > 0 && !v.e.shared ==> v.doing.Resting? && v.reports == [] && !v.stuck)
    && (v.e.destroyed > 0 && v.e.closes - v.e.late == 2 ==>
          v.e.late == 0 && v.doing.Resting? && v.reports == [])
  }

  /** As intended, it is not dispatched any more once it has been destroyed. */
  predicate IntendedInv(v: View) {
    v.e.destroyed > 0 ==> v.doing.Resting? && v.reports == []
  }

  predicate UseInv(v: View, written: bool) {
    if written then WrittenInv(v) else IntendedInv(v)
  }

  /** The registration after connectEstablished and `closes` runs of handleClose. */
  function Expected(closes: nat): Reg {
    if closes == 0 then Reg(Added, READ_EVENT, true, Present(READ_EVENT))
    else if closes == 2 then Reg(Added, NONE_EVENT, true, Present(NONE_EVENT))
    else Reg(Deleted, NONE_EVENT, true, Absent)
  }

  /** Established and not yet destroyed; handleClose runs three times at most. */
  predicate InService(e: Entry) {
    && e.closes <= 3
    && e.conn.reg == Expected(e.closes)
    && (if e.closes == 0 then e.conn.state.Connected? || e.conn.state.Disconnecting?
        else e.conn.state.Disconnected? || e.conn.state.Disconnecting?)
  }

  /**
   After the written connectDestroyed: it puts the channel back unless handleClose had run
   exactly twice, and every later handleClose takes it out or puts it back in turn.
   */
  predicate LeftRegistered(e: Entry)
  {
    e.closes - e.late != 2 && e.late % 2 == 0
  }

  /** Whether some table still has the channel, before and after connectDestroyed. */
  predicate RegInv(v: View, written: bool) {
    && (Held(v) ==> Mirror(v.e.conn.reg))
    && (v.e.established == 1 && v.e.destroyed == 0 ==> InService(v.e))
    && (v.e.conn.reg.kernel.Present? ==> Held(v))
    && (v.e.destroyed > 0 ==> v.e.conn.state.Disconnected? || v.e.conn.state.Disconnecting?)
    && (v.e.established == 1 ==> v.e.conn.reg.hashed || (!written && v.e.destroyed > 0))
    && (v.e.destroyed > 0 && !written ==>
          v.e.conn.reg.status.New? && v.e.conn.reg.kernel.Absent? && !v.e.conn.reg.hashed)
    && (v.e.destroyed > 0 && written && Held(v) ==> (v.e.conn.reg.kernel.Present? <==> LeftRegistered(v.e)))
  }

  /** How many of these callbacks can end in handleClose. */
  function Closers(callbacks: seq<Callback>): nat {
    if callbacks == [] then 0
    else (if callbacks[0].OnClose? || callbacks[0].OnRead? then 1 else 0) + Closers(callbacks[1..])
  }

  function Rest(v: View): seq<Callback> {
    if v.doing.Resting? then [] else v.doing.rest
  }

  /** How often handleClose has run and may still run in the current dispatch. */
  predicate CloseInv(v: View) {
    v.e.established == 1 && v.e.destroyed == 0 ==>
      && |v.reports| <= 1
      && (v.reports != [] ==>
            && v.doing.Resting? && v.e.conn.reg.kernel.Present?
            && Reportable(v.reports[0], v.e.conn.reg.kernel.mask))
      && Closers(Rest(v)) <= (if v.e.closes == 0 then 2 else if v.e.closes == 3 then 0 else 1)
      && (!v.e.bare ==> v.e.closes + Closers(Rest(v)) <= 1)
  }

  predicate Inv(v: View, written: bool) {
    && OrderInv(v) && PhaseInv(v) && DestroyInv(v) && BalanceInv(v)
    && UseInv(v, written) && RegInv(v, written) && CloseInv(v)
  }

  // ---------------------------------------------------------------- preservation

  /** The part of the invariant that is about calls and holders. */
  predicate CountInv(v: View, written: bool) {
    OrderInv(v) && PhaseInv(v) && DestroyInv(v) && BalanceInv(v) && UseInv(v, written)
  }

  /** A handler that calls handleClose; what that does to the registration is another matter. */
  lemma CloserKeepsCounts(v: View, conn: Conn, rest: seq<Callback>, written: bool)
    requires CountInv(v, written) && v.doing.Handler?
    requires v.e.destroyed > 0 ==> written
    ensures CountInv(v.(e := CountClose(v.e, conn), doing := Closer(rest)), written)
  {
  }

  lemma HandlerKeepsCounts(v: View, rest: seq<Callback>, reports: seq<Mask>, bare: bool, written: bool)
    requires CountInv(v, written) && v.phase.Dispatching?
    requires v.doing.Handler? || (v.doing.Resting? && v.reports != [])
    ensures CountInv(v.(e := v.e.(bare := bare), reports := reports, doing := Handler(rest)), written)
  {
  }

  lemma CloseDoneKeepsCounts(v: View, written: bool)
    requires CountInv(v, written) && Enabled(v, CloseDone, written)
    ensures CountInv(Apply(v, CloseDone, written), written)
  {
  }

  lemma ReportedKeepsCounts(v: View, masks: seq<Mask>, written: bool)
    requires CountInv(v, written) && RegInv(v, written) && Enabled(v, Reported(masks), written)
    ensures CountInv(Apply(v, Reported(masks), written), written)
  {
  }

  predicate OfLoop(event: Event) {
    event.HandleDone? || event.DispatchDone? || event.BatchDone? || event.AwayBatchDone?
  }

  lemma LoopKeepsCounts(v: View, event: Event, written: bool)
    requires CountInv(v, written) && Enabled(v, event, written) && OfLoop(event)
    ensures CountInv(Apply(v, event, written), written)
  {
  }

  predicate OfServer(event: Event) {
    event.DestructorBegun? || event.DropDone? || event.DestructorEnded?
  }

  lemma ServerKeepsCounts(v: View, event: Event, written: bool)
    requires CountInv(v, written) && Enabled(v, event, written) && OfServer(event)
    ensures CountInv(Apply(v, event, written), written)
  {
  }

  lemma OutsideKeepsCounts(v: View, outside: set<nat>, shared: bool, written: bool)
    requires CountInv(v, written) && (outside != {} ==> shared) && (v.e.shared ==> shared)
    ensures CountInv(v.(outside := outside, e := v.e.(shared := shared)), written)
  {
  }

  /** The events that leave queue and registration alone. */
  predicate Quiet(event: Event) {
    OfLoop(event) || OfServer(event) || event.Shared? || event.Released? || event.Unseen?
  }

  lemma QuietKeepsCounts(v: View, event: Event, written: bool)
    requires CountInv(v, written) && Enabled(v, event, written) && Quiet(event)
    ensures CountInv(Apply(v, event, written), written)
  {
    if OfLoop(event) {
      LoopKeepsCounts(v, event, written);
    } else if OfServer(event) {
      ServerKeepsCounts(v, event, written);
    } else if !event.Unseen? {
      var v' := Apply(v, event, written);
      OutsideKeepsCounts(v, v'.outside, v'.e.shared, written);
    }
  }

  lemma RunKeepsCounts(v: View, conn: Conn, written: bool)
    requires CountInv(v, written) && Enabled(v, Ran, written)
    ensures
      var e := v.e.(conn := conn);
      var e' := if v.calls[0].Up? then e.(established := e.established + 1) else e.(destroyed := e.destroyed + 1);
      CountInv(v.(calls := v.calls[1..], held := true, e := e'), written)
  {
  }

  lemma PostKeepsCounts(v: View, conn: Conn, written: bool)
    requires CountInv(v, written) && Enabled(v, Posted, written)
    ensures
      var v' := v.(creating := false);
      CountInv(if v.e.loop == 0 then v'.(e := v.e.(conn := conn, established := v.e.established + 1))
               else v'.(calls := v.calls + [Up]), written)
  {
  }

  lemma DropKeepsCounts(v: View, conn: Conn, written: bool)
    requires CountInv(v, written) && Enabled(v, Dropped, written)
    ensures
      var v' := v.(mapped := false, dropping := true);
      CountInv(if v.e.loop == 0 then v'.(e := v.e.(conn := conn, destroyed := v.e.destroyed + 1))
               else v'.(calls := v.calls + [Down]), written)
  {
  }

  lemma RemovalKeepsCounts(v: View, event: Event, written: bool)
    requires CountInv(v, written) && Enabled(v, event, written) && (event.RemovalRan? || event.RemovalDone?)
    ensures CountInv(Apply(v, event, written), written)
  {
  }

  // -------------------------------------------------------------- registration

  /** connectEstablished registers, as the callbacks of handleClose expect. */
  lemma EstablishRegisters(e: Entry)
    requires e.conn == CREATED && e.closes == 0 && e.destroyed == 0
    ensures InService(Establish(e)) && Mirror(Establish(e).conn.reg)
  {
  }

  lemma CloseTurns(e: Entry)
    requires InService(e) && e.closes <= 2
    ensures InService(Close(e))
  {
  }

  lemma CloseMirrors(e: Entry)
    requires Mirror(e.conn.reg)
    ensures Mirror(Close(e).conn.reg)
    ensures e.conn.reg.hashed ==> Close(e).conn.reg.hashed
  {
  }

  /** What connectDestroyed leaves, as intended and as written. */
  lemma DestroyLeaves(e: Entry, written: bool)
    requires Mirror(e.conn.reg) && (e.destroyed == 0 ==> InService(e))
    requires e.destroyed > 0 ==> !written && e.conn.reg.status.New?
    requires e.destroyed > 0 ==> e.conn.state.Disconnected? || e.conn.state.Disconnecting?
    ensures Destroy(e, written).conn.state.Disconnected? || Destroy(e, written).conn.state.Disconnecting?
    ensures
      var r := Destroy(e, written).conn.reg;
      && Mirror(r)
      && (!written ==> r.status.New? && r.kernel.Absent? && !r.hashed)
      && (written ==> r.hashed && (r.kernel.Absent? <==> e.closes == 2))
  {
  }

  /** Nothing happens to the connection itself. */
  lemma UntouchedKeepsReg(v: View, v': View, written: bool)
    requires RegInv(v, written) && DestroyInv(v') && (Held(v') ==> Held(v))
    requires v'.e == v.e.(bare := v'.e.bare, shared := v'.e.shared)
    ensures RegInv(Settle(v'), written)
  {
  }

  lemma ShutKeepsReg(v: View, written: bool)
    requires RegInv(v, written) && Enabled(v, ShutStored, written)
    ensures RegInv(Settle(Apply(v, ShutStored, written)), written)
  {
  }

  lemma CloseToggles(e: Entry)
    requires Mirror(e.conn.reg)
    ensures Close(e).conn.reg.kernel.Present? <==> e.conn.reg.kernel.Absent?
  {
  }

  lemma CalledKeepsReg(v: View, endOfFile: bool, written: bool)
    requires Inv(v, written) && Enabled(v, Called(endOfFile), written) && Closes(v.doing.rest[0], endOfFile)
    ensures RegInv(Apply(v, Called(endOfFile), written), written)
  {
    CloseMirrors(v.e);
    if v.e.destroyed == 0 {
      CloseTurns(v.e);
    } else {
      CloseToggles(v.e);
    }
  }

  lemma DestroyedKeepsReg(v: View, v': View, written: bool)
    requires RegInv(v, written) && Held(v) && v.e.established == 1
    requires v'.e == Destroy(v.e, written) && (written ==> v.e.destroyed == 0 && v.e.late == 0)
    ensures RegInv(Settle(v'), written)
  {
    DestroyLeaves(v.e, written);
  }

  lemma EstablishedKeepsReg(v: View, v': View, written: bool)
    requires Inv(v, written) && v.e.established == 0
    requires v'.e == Establish(v.e) && Held(v')
    ensures RegInv(v', written)
  {
    EstablishRegisters(v.e);
  }

  // -------------------------------------------------------- how often it closes

  /** How many callbacks of one report can close, by the mask it was reported under. */
  lemma ReportCloses(revents: Mask, mask: Mask)
    requires Reportable(revents, mask)
    ensures Closers(Callbacks(revents)) <= 2
    ensures mask == NONE_EVENT ==> Closers(Callbacks(revents)) <= 1
    ensures mask == READ_EVENT && !BareHangUp(revents, mask) ==> Closers(Callbacks(revents)) <= 1
  {
    ClosersOf(revents);
    if mask == NONE_EVENT {
      CallbacksWithinMask(revents, mask);
      assert revents & (EPOLLIN | EPOLLPRI) == 0;
    }
  }

  lemma {:induction false} ClosersAppend(a: seq<Callback>, b: seq<Callback>)
    ensures Closers(a + b) == Closers(a) + Closers(b)
  {
    if a == [] {
      assert a + b == b;
    } else {
      assert (a + b)[1..] == a[1..] + b;
      ClosersAppend(a[1..], b);
    }
  }

  lemma ClosersOf(revents: Mask)
    ensures Closers(Callbacks(revents))
            == (if revents & EPOLLHUP != 0 && revents & EPOLLIN == 0 then 1 else 0)
               + (if revents & (EPOLLIN | EPOLLPRI) != 0 then 1 else 0)
  {
    var close := if revents & EPOLLHUP != 0 && revents & EPOLLIN == 0 then [OnClose] else [];
    var error := if revents & EPOLLERR != 0 then [OnError] else [];
    var read := if revents & (EPOLLIN | EPOLLPRI) != 0 then [OnRead] else [];
    var write := if revents & WRITE_EVENT != 0 then [OnWrite] else [];
    ClosersAppend(close + error + read, write);
    ClosersAppend(close + error, read);
    ClosersAppend(close, error);
    forall callback: Callback
      ensures Closers([callback]) == if callback.OnClose? || callback.OnRead? then 1 else 0
    {
      assert [callback][1..] == [];
    }
  }

  lemma TakenKeepsClose(v: View, written: bool)
    requires Inv(v, written) && Enabled(v, Taken, written)
    ensures CloseInv(Apply(v, Taken, written))
  {
    if v.e.established == 1 && v.e.destroyed == 0 {
      ReportCloses(v.reports[0], v.e.conn.reg.kernel.mask);
    }
  }

  /** One callback less to come, and `closed` says whether it closed. */
  lemma CalledKeepsClose(v: View, v': View, closed: bool)
    requires CloseInv(v) && v.doing.Handler? && v.doing.rest != []
    requires closed ==> v.doing.rest[0].OnClose? || v.doing.rest[0].OnRead?
    requires Rest(v') == v.doing.rest[1..] && v'.reports == v.reports
    requires v'.e == if closed then CountClose(v.e, v'.e.conn) else v.e
    ensures CloseInv(v')
  {
  }

  lemma OtherKeepsClose(v: View, v': View)
    requires CloseInv(v) && v'.reports == v.reports && (Rest(v') == Rest(v) || Rest(v') == [])
    requires v.doing.Resting? ==> v'.doing.Resting?
    requires v'.e.closes == v.e.closes && v'.e.bare == v.e.bare && v'.e.destroyed == v.e.destroyed
    requires v'.e.established == v.e.established && v'.e.conn.reg == v.e.conn.reg
    ensures CloseInv(v')
  {
  }

  // ----------------------------------------------------------------- all events

  /** Freeing changes nothing that the invariant still speaks of. */
  lemma SettleKeeps(v: View, written: bool)
    requires CountInv(v, written) && CloseInv(v) && RegInv(Settle(v), written)
    ensures Inv(Settle(v), written)
  {
  }

  /** Events that move the connection between holders, or end a phase, and leave it alone. */
  predicate SameEntry(v: View, v': View) {
    && v'.e == v.e.(shared := v'.e.shared) && v'.reports == v.reports && (Rest(v') == Rest(v) || Rest(v') == [])
    && (v.doing.Resting? ==> v'.doing.Resting?)
    && (Held(v') ==> Held(v))
  }

  lemma SameEntryKeepsInv(v: View, v': View, written: bool)
    requires RegInv(v, written) && CloseInv(v) && CountInv(v', written) && SameEntry(v, v')
    ensures Inv(Settle(v'), written)
  {
    UntouchedKeepsReg(v, v', written);
    OtherKeepsClose(v, v');
    SettleKeeps(v', written);
  }

  lemma ClosingKeepsInv(v: View, endOfFile: bool, written: bool)
    requires Inv(v, written) && Enabled(v, Called(endOfFile), written) && Closes(v.doing.rest[0], endOfFile)
    ensures Inv(Settle(Apply(v, Called(endOfFile), written)), written)
  {
    var v' := Apply(v, Called(endOfFile), written);
    CloserKeepsCounts(v, v'.e.conn, v.doing.rest[1..], written);
    CalledKeepsReg(v, endOfFile, written);
    CalledKeepsClose(v, v', true);
    SettleKeeps(v', written);
  }

  lemma PassingKeepsInv(v: View, endOfFile: bool, written: bool)
    requires Inv(v, written) && Enabled(v, Called(endOfFile), written) && !Closes(v.doing.rest[0], endOfFile)
    ensures Inv(Settle(Apply(v, Called(endOfFile), written)), written)
  {
    var v' := Apply(v, Called(endOfFile), written);
    HandlerKeepsCounts(v, v.doing.rest[1..], v.reports, v.e.bare, written);
    UntouchedKeepsReg(v, v', written);
    CalledKeepsClose(v, v', false);
    SettleKeeps(v', written);
  }

  lemma TakenKeepsInv(v: View, written: bool)
    requires Inv(v, written) && Enabled(v, Taken, written)
    ensures Inv(Settle(Apply(v, Taken, written)), written)
  {
    var v' := Apply(v, Taken, written);
    HandlerKeepsCounts(v, v'.doing.rest, v'.reports, v'.e.bare, written);
    UntouchedKeepsReg(v, v', written);
    TakenKeepsClose(v, written);
    SettleKeeps(v', written);
  }

  lemma RanUpKeepsInv(v: View, written: bool)
    requires Inv(v, written) && Enabled(v, Ran, written) && v.calls[0].Up?
    ensures Inv(Settle(Apply(v, Ran, written)), written)
  {
    var v' := Apply(v, Ran, written);
    RunKeepsCounts(v, v'.e.conn, written);
    EstablishedKeepsReg(v, v', written);
    SettleKeeps(v', written);
  }

  lemma RanDownKeepsInv(v: View, written: bool)
    requires Inv(v, written) && Enabled(v, Ran, written) && v.calls[0].Down?
    ensures Inv(Settle(Apply(v, Ran, written)), written)
  {
    var v' := Apply(v, Ran, written);
    RunKeepsCounts(v, v'.e.conn, written);
    DestroyedKeepsReg(v, v', written);
    SettleKeeps(v', written);
  }

  lemma PostedHereKeepsInv(v: View, written: bool)
    requires Inv(v, written) && Enabled(v, Posted, written) && v.e.loop == 0
    ensures Inv(Settle(Apply(v, Posted, written)), written)
  {
    var v' := Apply(v, Posted, written);
    PostKeepsCounts(v, v'.e.conn, written);
    EstablishedKeepsReg(v, v', written);
    SettleKeeps(v', written);
  }

  lemma PostedAwayKeepsInv(v: View, written: bool)
    requires Inv(v, written) && Enabled(v, Posted, written) && v.e.loop != 0
    ensures Inv(Settle(Apply(v, Posted, written)), written)
  {
    var v' := Apply(v, Posted, written);
    PostKeepsCounts(v, v'.e.conn, written);
    SameEntryKeepsInv(v, v', written);
  }

  lemma DroppedHereKeepsInv(v: View, written: bool)
    requires Inv(v, written) && Enabled(v, Dropped, written) && v.e.loop == 0
    ensures Inv(Settle(Apply(v, Dropped, written)), written)
  {
    var v' := Apply(v, Dropped, written);
    DropKeepsCounts(v, v'.e.conn, written);
    DestroyedKeepsReg(v, v', written);
    SettleKeeps(v', written);
  }

  lemma DroppedAwayKeepsInv(v: View, written: bool)
    requires Inv(v, written) && Enabled(v, Dropped, written) && v.e.loop != 0
    ensures Inv(Settle(Apply(v, Dropped, written)), written)
  {
    var v' := Apply(v, Dropped, written);
    DropKeepsCounts(v, v'.e.conn, written);
    SameEntryKeepsInv(v, v', written);
  }

  lemma ReportedKeepsInv(v: View, masks: seq<Mask>, written: bool)
    requires Inv(v, written) && Enabled(v, Reported(masks), written)
    ensures Inv(Settle(Apply(v, Reported(masks), written)), written)
  {
    var v' := Apply(v, Reported(masks), written);
    ReportedKeepsCounts(v, masks, written);
    UntouchedKeepsReg(v, v', written);
    SettleKeeps(v', written);
  }

  lemma LoopIsSameEntry(v: View, event: Event, written: bool)
    requires Enabled(v, event, written) && OfLoop(event)
    ensures SameEntry(v, Apply(v, event, written))
  {
    match event
    case HandleDone => assert SameEntry(v, Apply(v, HandleDone, written));
    case DispatchDone => assert SameEntry(v, Apply(v, DispatchDone, written));
    case BatchDone => assert SameEntry(v, Apply(v, BatchDone, written));
    case AwayBatchDone => assert SameEntry(v, Apply(v, AwayBatchDone, written));
  }

  lemma ServerIsSameEntry(v: View, event: Event, written: bool)
    requires Enabled(v, event, written) && OfServer(event)
    ensures SameEntry(v, Apply(v, event, written))
  {
    match event
    case DestructorBegun => assert SameEntry(v, Apply(v, DestructorBegun, written));
    case DropDone => assert SameEntry(v, Apply(v, DropDone, written));
    case DestructorEnded => assert SameEntry(v, Apply(v, DestructorEnded, written));
  }

  lemma QuietIsSameEntry(v: View, event: Event, written: bool)
    requires Enabled(v, event, written) && Quiet(event)
    ensures SameEntry(v, Apply(v, event, written))
  {
    if OfLoop(event) {
      LoopIsSameEntry(v, event, written);
    } else if OfServer(event) {
      ServerIsSameEntry(v, event, written);
    } else {
      match event
      case Shared(tid) => assert SameEntry(v, Apply(v, Shared(tid), written));
      case Released(tid) => assert SameEntry(v, Apply(v, Released(tid), written));
      case Unseen =>
    }
  }

  lemma QuietKeepsInv(v: View, event: Event, written: bool)
    requires Inv(v, written) && Enabled(v, event, written) && Quiet(event)
    ensures Inv(Settle(Apply(v, event, written)), written)
  {
    QuietKeepsCounts(v, event, written);
    QuietIsSameEntry(v, event, written);
    SameEntryKeepsInv(v, Apply(v, event, written), written);
  }

  lemma CloseDoneIsSameEntry(v: View, written: bool)
    requires Enabled(v, CloseDone, written)
    ensures SameEntry(v, Apply(v, CloseDone, written))
  {
  }

  lemma CloseDoneKeepsInv(v: View, written: bool)
    requires Inv(v, written) && Enabled(v, CloseDone, written)
    ensures Inv(Settle(Apply(v, CloseDone, written)), written)
  {
    CloseDoneKeepsCounts(v, written);
    CloseDoneIsSameEntry(v, written);
    SameEntryKeepsInv(v, Apply(v, CloseDone, written), written);
  }

  lemma RemovalRanIsSameEntry(v: View, written: bool)
    requires Enabled(v, RemovalRan, written)
    ensures SameEntry(v, Apply(v, RemovalRan, written))
  {
  }

  lemma RemovalDoneIsSameEntry(v: View, written: bool)
    requires Enabled(v, RemovalDone, written)
    ensures SameEntry(v, Apply(v, RemovalDone, written))
  {
  }

  lemma RemovalKeepsInv(v: View, event: Event, written: bool)
    requires Inv(v, written) && Enabled(v, event, written) && (event.RemovalRan? || event.RemovalDone?)
    ensures Inv(Settle(Apply(v, event, written)), written)
  {
    RemovalKeepsCounts(v, event, written);
    if event.RemovalRan? {
      RemovalRanIsSameEntry(v, written);
    } else {
      RemovalDoneIsSameEntry(v, written);
    }
    SameEntryKeepsInv(v, Apply(v, event, written), written);
  }

  /** A state stored by a thread that holds the connection matters to no count. */
  lemma StateKeepsCounts(v: View, conn: Conn, written: bool)
    requires CountInv(v, written) && CloseInv(v) && v.e.established == 1 && conn.reg == v.e.conn.reg
    ensures CountInv(v.(e := v.e.(conn := conn)), written) && CloseInv(v.(e := v.e.(conn := conn)))
  {
  }

  lemma ShutKeepsInv(v: View, written: bool)
    requires Inv(v, written) && Enabled(v, ShutStored, written)
    ensures Inv(Settle(Apply(v, ShutStored, written)), written)
  {
    ShutKeepsReg(v, written);
    StateKeepsCounts(v, v.e.conn.(state := Disconnecting), written);
    SettleKeeps(Apply(v, ShutStored, written), written);
  }

  lemma CalledKeepsInv(v: View, endOfFile: bool, written: bool)
    requires Inv(v, written) && Enabled(v, Called(endOfFile), written)
    ensures Inv(Settle(Apply(v, Called(endOfFile), written)), written)
  {
    if Closes(v.doing.rest[0], endOfFile) {
      ClosingKeepsInv(v, endOfFile, written);
    } else {
      PassingKeepsInv(v, endOfFile, written);
    }
  }

  lemma CountingKeepsInv(v: View, event: Event, written: bool)
    requires Inv(v, written) && Enabled(v, event, written) && (event.Posted? || event.Ran? || event.Dropped?)
    ensures Inv(Settle(Apply(v, event, written)), written)
  {
    match event
    case Ran =>
      if v.calls[0].Up? { RanUpKeepsInv(v, written); } else { RanDownKeepsInv(v, written); }
    case Posted =>
      if v.e.loop == 0 { PostedHereKeepsInv(v, written); } else { PostedAwayKeepsInv(v, written); }
    case Dropped =>
      if v.e.loop == 0 { DroppedHereKeepsInv(v, written); } else { DroppedAwayKeepsInv(v, written); }
  }

  predicate Handled(event: Event) {
    event.Called? || event.Taken? || event.Reported? || event.CloseDone?
  }

  lemma HandledKeepsInv(v: View, event: Event, written: bool)
    requires Inv(v, written) && Enabled(v, event, written) && Handled(event)
    ensures Inv(Settle(Apply(v, event, written)), written)
  {
    match event
    case Called(endOfFile) => CalledKeepsInv(v, endOfFile, written);
    case Taken => TakenKeepsInv(v, written);
    case Reported(masks) => ReportedKeepsInv(v, masks, written);
    case CloseDone => CloseDoneKeepsInv(v, written);
  }

  lemma EventKeepsInv(v: View, event: Event, written: bool)
    requires Inv(v, written) && Enabled(v, event, written)
    ensures Inv(Settle(Apply(v, event, written)), written)
  {
    if Quiet(event) {
      QuietKeepsInv(v, event, written);
    } else if event.Posted? || event.Ran? || event.Dropped? {
      CountingKeepsInv(v, event, written);
    } else if Handled(event) {
      HandledKeepsInv(v, event, written);
    } else if event.ShutStored? {
      ShutKeepsInv(v, written);
    } else {
      RemovalKeepsInv(v, event, written);
    }
  }

  /** A connection just accepted. */
  function Accepted(loop: nat, phase: Phase): View {
    View(Entry(loop, CREATED, 0, 0, 0, 0, false, false), true, Serving, phase, [], Resting, [], 0,
         false, false, true, false, false, false, {})
  }

  lemma AcceptedHasInv(loop: nat, phase: Phase, written: bool)
    ensures Inv(Accepted(loop, phase), written)
  {
  }

  // ----------------------------------------------------------------- consequences

  /** As intended, a report still to be dispatched or an entry in the interest set means a holder. */
  lemma ExposedIsHeld(v: View)
    requires Inv(v, false) && (v.e.conn.reg.kernel.Present? || v.reports != [])
    ensures Held(v)
  {
  }

  /** As written, where a report can outlive the connection. */
  lemma DanglingView(v: View)
    requires Inv(v, true) && !Held(v) && v.reports != []
    ensures v.e.destroyed > 0 && !v.server.Serving? && (v.e.loop != 0 || v.e.shared)
  {
  }

  lemma FreedIsForgotten(v: View, written: bool)
    requires Inv(v, written) && !Held(v)
    ensures v.e.established == 1 && v.e.destroyed > 0 && v.e.conn.reg.kernel.Absent?
    ensures v.e.conn.reg.hashed <==> written
  {
  }

  lemma DispatchStep(c: Conn, callbacks: seq<Callback>, endOfFile: bool)
    requires callbacks != []
    ensures Dispatch(c, callbacks, endOfFile)
            == Dispatch(CloseIf(c, Closes(callbacks[0], endOfFile)), callbacks[1..], endOfFile)
  {
  }

  lemma ClosingTurns(v: View, endOfFile: bool, written: bool)
    requires Enabled(v, Called(endOfFile), written) && Closes(v.doing.rest[0], endOfFile)
    ensures
      var v' := Apply(v, Called(endOfFile), written);
      v'.doing == Closer(v.doing.rest[1..]) && v'.e == Close(v.e)
  {
  }

  lemma PassingTurns(v: View, endOfFile: bool, written: bool)
    requires Enabled(v, Called(endOfFile), written) && !Closes(v.doing.rest[0], endOfFile)
    ensures
      var v' := Apply(v, Called(endOfFile), written);
      v'.doing == Handler(v.doing.rest[1..]) && v'.e == v.e
  {
  }

  /** Callbacks run one at a time as they would in one go, if all reads agree on the end of file. */
  lemma CalledIsDispatch(v: View, endOfFile: bool, written: bool)
    requires Enabled(v, Called(endOfFile), written)
    ensures
      var v' := Apply(v, Called(endOfFile), written);
      && !v'.doing.Resting?
      && Dispatch(v.e.conn, v.doing.rest, endOfFile) == Dispatch(v'.e.conn, v'.doing.rest, endOfFile)
  {
    DispatchStep(v.e.conn, v.doing.rest, endOfFile);
    if Closes(v.doing.rest[0], endOfFile) {
      ClosingTurns(v, endOfFile, written);
    } else {
      PassingTurns(v, endOfFile, written);
    }
  }

  predicate Counts(event: Event) {
    event.Posted? || event.Ran? || event.Dropped?
  }

  predicate SameCounts(e: Entry, e': Entry) {
    e'.established == e.established && e'.destroyed == e.destroyed
  }

  lemma ReportsDoNotCount(v: View, event: Event, written: bool)
    requires Enabled(v, event, written) && (event.Reported? || event.Taken?)
    ensures SameCounts(v.e, Apply(v, event, written).e)
  {
  }

  lemma CalledDoesNotCount(v: View, endOfFile: bool, written: bool)
    requires Enabled(v, Called(endOfFile), written)
    ensures SameCounts(v.e, Apply(v, Called(endOfFile), written).e)
  {
    if Closes(v.doing.rest[0], endOfFile) {
      ClosingTurns(v, endOfFile, written);
    } else {
      PassingTurns(v, endOfFile, written);
    }
  }

  lemma OthersDoNotCount(v: View, event: Event, written: bool)
    requires Enabled(v, event, written)
    requires event.CloseDone? || event.RemovalRan? || event.RemovalDone? || event.ShutStored?
    ensures SameCounts(v.e, Apply(v, event, written).e)
  {
  }

  /** What one event does to the order of the calls. */
  ghost predicate Ordered(v: View, v': View, written: bool) {
    && v.e.established <= v'.e.established <= 1
    && v.e.destroyed <= v'.e.destroyed
    && (v'.e.destroyed > v.e.destroyed ==> v.e.established == 1 && v'.e == Destroy(v.e, written))
    && (v'.e.established > v.e.established ==> v.e.conn == CREATED)
    && (written && v'.e.destroyed > v.e.destroyed ==> v.e.destroyed == 0)
  }

  lemma CountingOrder(v: View, event: Event, written: bool)
    requires CountInv(v, written) && Enabled(v, event, written) && Counts(event)
    ensures Ordered(v, Apply(v, event, written), written)
  {
  }

  lemma EventOrder(v: View, event: Event, written: bool)
    requires Inv(v, written) && Enabled(v, event, written)
    ensures Ordered(v, Apply(v, event, written), written)
  {
    if Counts(event) {
      CountingOrder(v, event, written);
    } else if event.Called? {
      CalledDoesNotCount(v, event.endOfFile, written);
    } else if event.Reported? || event.Taken? {
      ReportsDoNotCount(v, event, written);
    } else if Quiet(event) {
      QuietIsSameEntry(v, event, written);
    } else {
      OthersDoNotCount(v, event, written);
    }
  }

  /** connectDestroyed as written unregisters exactly after two runs of handleClose. */
  lemma WrittenDestroyEvent(v: View, event: Event)
    requires Inv(v, true) && Enabled(v, event, true)
    requires Apply(v, event, true).e.destroyed > v.e.destroyed
    ensures v.e.destroyed == 0 && v.e.closes <= 3 && (!v.e.bare ==> v.e.closes <= 1)
    ensures Apply(v, event, true).e.conn.reg.kernel.Absent? <==> v.e.closes == 2
  {
    EventOrder(v, event, true);
    DestroyLeaves(v.e, true);
  }

  lemma CallingHolds(v: View, event: Event, written: bool)
    requires OrderInv(v) && Enabled(v, event, written)
    requires event.Posted? || event.Ran? || event.Dropped? || event.RemovalRan? || event.RemovalDone?
    ensures Held(Apply(v, event, written))
  {
  }

  lemma HandlingHolds(v: View, event: Event, written: bool)
    requires Enabled(v, event, written) && Held(v)
    requires event.Reported? || event.Taken? || event.Called? || event.CloseDone? || event.ShutStored?
    ensures Held(Apply(v, event, written))
  {
  }

  /** When the last pointer goes, the channel is still registered in these cases. */
  lemma FreeingEvent(v: View, event: Event, written: bool)
    requires Inv(v, written) && Enabled(v, event, written)
    requires Held(v) && !Held(Apply(v, event, written))
    ensures
      var e' := Apply(v, event, written).e;
      e'.conn.reg.kernel.Present? <==> written && LeftRegistered(e')
  {
    EventKeepsInv(v, event, written);
    if Quiet(event) {
      QuietIsSameEntry(v, event, written);
    } else if event.Posted? || event.Ran? || event.Dropped? || event.RemovalRan? || event.RemovalDone? {
      CallingHolds(v, event, written);
    } else {
      HandlingHolds(v, event, written);
    }
  }
}
