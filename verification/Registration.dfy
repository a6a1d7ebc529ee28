/**
 The registration machine of one `Channel` (Netmux/reactor/Channel.h,
 Netmux/reactor/EPollPoller.cc): its status, its event mask, whether the poller's hash
 map holds it, and the entry the kernel's interest set holds for it.
 */
module Registration {
  type Mask = bv32

  const NONE_EVENT: Mask := 0
  const EPOLLIN: Mask := 1
  const EPOLLPRI: Mask := 2
  const READ_EVENT: Mask := 3   // EPOLLIN | EPOLLPRI
  const WRITE_EVENT: Mask := 4  // EPOLLOUT
  const EPOLLERR: Mask := 8
  const EPOLLHUP: Mask := 16

  datatype Status = New | Added | Deleted

  datatype Interest = Absent | Present(mask: Mask)

  datatype Reg = Reg(status: Status, events: Mask, hashed: bool, kernel: Interest)

  const UNREGISTERED := Reg(New, NONE_EVENT, false, Absent)

  datatype Ctl = Add | Mod | Del

  /** epoll_ctl succeeds: ADD on an absent descriptor, MOD and DEL on a present one. */
  predicate Legal(ctl: Ctl, kernel: Interest) {
    ctl.Add? <==> kernel.Absent?
  }

  /** The interest set after epoll_ctl; an illegal call fails and changes nothing. */
  function EpollCtl(kernel: Interest, ctl: Ctl, mask: Mask): Interest {
    if !Legal(ctl, kernel) then kernel
    else if ctl.Del? then Absent
    else Present(mask)
  }

  /** The call updateChannel issues. */
  function UpdateCtl(r: Reg): Ctl {
    if !r.status.Added? then Add
    else if r.events == NONE_EVENT then Del
    else Mod
  }

  /** EPollPoller::updateChannel. */
  function Update(r: Reg): Reg {
    var kernel := EpollCtl(r.kernel, UpdateCtl(r), r.events);
    if !r.status.Added? then Reg(Added, r.events, r.hashed || r.status.New?, kernel)
    else if r.events == NONE_EVENT then r.(status := Deleted, kernel := kernel)
    else r.(kernel := kernel)
  }

  /** EPollPoller::removeChannel, which nothing calls as the code stands. */
  function Remove(r: Reg): Reg {
    var kernel := if r.status.Added? then EpollCtl(r.kernel, Del, r.events) else r.kernel;
    Reg(New, r.events, false, kernel)
  }

  datatype Setter = EnableReading | DisableReading | EnableWriting | DisableWriting | DisableAll

  function NewEvents(events: Mask, setter: Setter): Mask {
    match setter
    case EnableReading => events | READ_EVENT
    case DisableReading => events & !READ_EVENT
    case EnableWriting => events | WRITE_EVENT
    case DisableWriting => events & !WRITE_EVENT
    case DisableAll => NONE_EVENT
  }

  /** `after` is `before` with exactly these bits set, or cleared. */
  predicate SetsOnly(before: Mask, after: Mask, bits: Mask) {
    after & bits == bits && after & !bits == before & !bits
  }

  predicate ClearsOnly(before: Mask, after: Mask, bits: Mask) {
    after & bits == 0 && after & !bits == before & !bits
  }

  lemma OrSets(events: Mask, bits: Mask)
    ensures SetsOnly(events, events | bits, bits)
  {
    assert (events | bits) & bits == bits;
    assert (events | bits) & !bits == events & !bits;
  }

  lemma AndNotClears(events: Mask, bits: Mask)
    ensures ClearsOnly(events, events & !bits, bits)
  {
    assert (events & !bits) & bits == 0;
    assert (events & !bits) & !bits == events & !bits;
  }

  /** Each setter sets or clears its own bits and no others. */
  lemma SettersExactly(events: Mask)
    ensures SetsOnly(events, NewEvents(events, EnableReading), READ_EVENT)
    ensures ClearsOnly(events, NewEvents(events, DisableReading), READ_EVENT)
    ensures SetsOnly(events, NewEvents(events, EnableWriting), WRITE_EVENT)
    ensures ClearsOnly(events, NewEvents(events, DisableWriting), WRITE_EVENT)
  {
    OrSets(events, READ_EVENT);
    AndNotClears(events, READ_EVENT);
    OrSets(events, WRITE_EVENT);
    AndNotClears(events, WRITE_EVENT);
  }

  function Set(r: Reg, setter: Setter): Reg {
    Update(r.(events := NewEvents(r.events, setter)))
  }

  /** Status, hash map and interest set agree on whether the channel is registered. */
  predicate Linked(r: Reg) {
    && (r.status.Added? <==> r.kernel.Present?)
    && (r.hashed <==> !r.status.New?)
  }

  /** ... and the kernel's mask is the channel's. */
  predicate Mirror(r: Reg) {
    && Linked(r)
    && (r.kernel.Present? ==> r.kernel.mask == r.events)
    && (r.status.Deleted? ==> r.events == NONE_EVENT)
  }

  /** The mask is kept; only an added channel that wants nothing is out of the interest set. */
  lemma UpdateRestoresMirror(r: Reg)
    requires Linked(r)
    ensures Mirror(Update(r)) && Legal(UpdateCtl(r), r.kernel)
    ensures Update(r).events == r.events && Update(r).hashed
    ensures Update(r).kernel.Absent? <==> r.status.Added? && r.events == NONE_EVENT
  {
  }

  lemma RemoveForgets(r: Reg)
    requires Linked(r)
    ensures Remove(r) == Reg(New, r.events, false, Absent)
    ensures r.status.Added? ==> Legal(Del, r.kernel)
  {
  }

  // ------------------------------------------------------------------ whole runs

  datatype Op =
    | OpSet(setter: Setter)
    | OpRemove         // Channel::remove, had EventLoop::removeChannel called removeChannel
    | OpRemoveWritten  // Channel::remove as it stands: updateChannel again

  function Step(r: Reg, op: Op): Reg {
    match op
    case OpSet(setter) => Set(r, setter)
    case OpRemove => Remove(r)
    case OpRemoveWritten => Update(r)
  }

  /** The epoll_ctl calls an operation issues. */
  function Issued(r: Reg, op: Op): seq<Ctl> {
    match op
    case OpSet(setter) => [UpdateCtl(r.(events := NewEvents(r.events, setter)))]
    case OpRemove => if r.status.Added? then [Del] else []
    case OpRemoveWritten => [UpdateCtl(r)]
  }

  /** The interest set after some calls with one mask. */
  function Played(kernel: Interest, ctls: seq<Ctl>, mask: Mask): Interest
    decreases |ctls|
  {
    if ctls == [] then kernel else Played(EpollCtl(kernel, ctls[0], mask), ctls[1..], mask)
  }

  /** The calls issued are the calls that change the interest set. */
  lemma IssuedIsPlayed(r: Reg, op: Op)
    ensures Step(r, op).kernel == Played(r.kernel, Issued(r, op), Step(r, op).events)
  {
    assert forall ctl: Ctl :: Played(r.kernel, [ctl], Step(r, op).events)
                              == Played(EpollCtl(r.kernel, ctl, Step(r, op).events), [], Step(r, op).events);
  }

  function After(r: Reg, ops: seq<Op>): Reg
    decreases |ops|
  {
    if ops == [] then r else After(Step(r, ops[0]), ops[1..])
  }

  ghost predicate AllLegal(r: Reg, ops: seq<Op>)
    decreases |ops|
  {
    ops == [] || ((forall ctl :: ctl in Issued(r, ops[0]) ==> Legal(ctl, r.kernel))
                  && AllLegal(Step(r, ops[0]), ops[1..]))
  }

  lemma StepKeepsMirror(r: Reg, op: Op)
    requires Mirror(r)
    ensures Mirror(Step(r, op))
    ensures forall ctl :: ctl in Issued(r, op) ==> Legal(ctl, r.kernel)
  {
  }

  /** The poller mirrors the kernel after any sequence of calls, and no epoll_ctl ever fails. */
  lemma {:induction false} MirrorOverRun(r: Reg, ops: seq<Op>)
    requires Mirror(r)
    ensures Mirror(After(r, ops)) && AllLegal(r, ops)
    decreases |ops|
  {
    if ops != [] {
      StepKeepsMirror(r, ops[0]);
      MirrorOverRun(Step(r, ops[0]), ops[1..]);
    }
  }

  // ------------------------------------------------------- Channel::remove as written

  /** The written remove() takes the channel out of the interest set only in one case. */
  lemma WrittenRemoveUnregistersExactly(r: Reg)
    requires Mirror(r)
    ensures Step(r, OpRemoveWritten).kernel.Absent? <==> r.status.Added? && r.events == NONE_EVENT
    ensures Step(r, OpRemoveWritten).hashed
  {
  }

  /**
   disableAll() then remove(), as destructors and connectDestroyed call them, and before
   any close of the descriptor: whatever came before, a channel that was registered is put
   back into the interest set by the written remove(), and the intended remove() forgets it.
   */
  lemma TeardownExactly(ops: seq<Op>)
    ensures
      var r := After(UNREGISTERED, ops);
      && (After(r, [OpSet(DisableAll), OpRemoveWritten]).kernel.Present? <==> r.kernel.Present?)
      && After(r, [OpSet(DisableAll), OpRemove]) == UNREGISTERED
  {
    MirrorOverRun(UNREGISTERED, ops);
    var r := After(UNREGISTERED, ops);
    var d := Step(r, OpSet(DisableAll));
    assert [OpSet(DisableAll), OpRemoveWritten][1..] == [OpRemoveWritten];
    assert [OpSet(DisableAll), OpRemove][1..] == [OpRemove];
    assert After(d, [OpRemoveWritten]) == After(Update(d), []);
    assert After(d, [OpRemove]) == After(Remove(d), []);
  }

  // ------------------------------------------------------------------- dispatch

  datatype Callback = OnClose | OnError | OnRead | OnWrite

  /** Channel::handleEventWithGuard: which callbacks run, in order. */
  function Callbacks(revents: Mask): seq<Callback> {
    (if revents & EPOLLHUP != 0 && revents & EPOLLIN == 0 then [OnClose] else [])
    + (if revents & EPOLLERR != 0 then [OnError] else [])
    + (if revents & (EPOLLIN | EPOLLPRI) != 0 then [OnRead] else [])
    + (if revents & WRITE_EVENT != 0 then [OnWrite] else [])
  }

  /** epoll_wait reports nothing beyond the mask, except errors and hang-ups. */
  predicate Reportable(revents: Mask, mask: Mask) {
    revents & !(mask | EPOLLERR | EPOLLHUP) == 0
  }

  /** Only channels interested in reading are read, only those interested in writing written. */
  lemma CallbacksWithinMask(revents: Mask, mask: Mask)
    requires Reportable(revents, mask)
    ensures OnRead in Callbacks(revents) ==> mask & READ_EVENT != 0
    ensures OnWrite in Callbacks(revents) ==> mask & WRITE_EVENT != 0
    ensures mask == NONE_EVENT ==> OnRead !in Callbacks(revents) && OnWrite !in Callbacks(revents)
  {
    assert OnRead in Callbacks(revents) <==> revents & (EPOLLIN | EPOLLPRI) != 0;
    assert OnWrite in Callbacks(revents) <==> revents & WRITE_EVENT != 0;
  }

  function Position(callback: Callback): nat {
    match callback
    case OnClose => 0
    case OnError => 1
    case OnRead => 2
    case OnWrite => 3
  }

  /** Which reports run which callback, and that each runs once, in this order. */
  lemma CallbacksExactly(revents: Mask)
    ensures OnClose in Callbacks(revents) <==> revents & EPOLLHUP != 0 && revents & EPOLLIN == 0
    ensures OnError in Callbacks(revents) <==> revents & EPOLLERR != 0
    ensures OnRead in Callbacks(revents) <==> revents & (EPOLLIN | EPOLLPRI) != 0
    ensures OnWrite in Callbacks(revents) <==> revents & WRITE_EVENT != 0
    ensures forall i, j :: 0 <= i < j < |Callbacks(revents)| ==>
              Position(Callbacks(revents)[i]) < Position(Callbacks(revents)[j])
  {
    var close := if revents & EPOLLHUP != 0 && revents & EPOLLIN == 0 then [OnClose] else [];
    var error := if revents & EPOLLERR != 0 then [OnError] else [];
    var read := if revents & (EPOLLIN | EPOLLPRI) != 0 then [OnRead] else [];
    var write := if revents & WRITE_EVENT != 0 then [OnWrite] else [];
    InOrder(close, error, read, write);
  }

  lemma InOrder(close: seq<Callback>, error: seq<Callback>, read: seq<Callback>, write: seq<Callback>)
    requires close == [OnClose] || close == []
    requires error == [OnError] || error == []
    requires read == [OnRead] || read == []
    requires write == [OnWrite] || write == []
    ensures
      var all := close + error + read + write;
      && (OnClose in all <==> close != []) && (OnError in all <==> error != [])
      && (OnRead in all <==> read != []) && (OnWrite in all <==> write != [])
      && (forall i, j :: 0 <= i < j < |all| ==> Position(all[i]) < Position(all[j]))
  {
  }

  /** One report runs the close callback and then the read callback in exactly one case. */
  lemma CloseThenReadExactly(revents: Mask)
    ensures OnClose in Callbacks(revents) && OnRead in Callbacks(revents)
            <==> revents & EPOLLHUP != 0 && revents & EPOLLIN == 0 && revents & EPOLLPRI != 0
  {
    assert OnRead in Callbacks(revents) <==> revents & (EPOLLIN | EPOLLPRI) != 0;
    assert OnClose in Callbacks(revents) <==> revents & EPOLLHUP != 0 && revents & EPOLLIN == 0;
  }
}
