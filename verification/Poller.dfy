/**
 `Channel` and `EPollPoller` as written, updated in place, with the kernel's interest set
 as a ghost map.  Every method's effect on a channel is the operation of `Registration`
 on that channel's view, and every epoll_ctl is issued where it is legal.
 */
module Pollers {
  import opened Registration

  /** What the kernel stores for a descriptor: a mask and the pointer it hands back. */
  datatype Registered = Registered(mask: Mask, channel: Channel)

  /** One element of the array epoll_wait fills. */
  datatype Report = Report(revents: Mask, channel: Channel)

  class Channel {
    const fd: int
    var events: Mask
    var revents: Mask
    var status: Status

    constructor (fd: int)
      ensures this.fd == fd && events == NONE_EVENT && status == New
    {
      this.fd := fd;
      events, revents, status := NONE_EVENT, 0, New;
    }

    /** events_ assigned, then update(). */
    method Assign(mask: Mask, poller: EPollPoller)
      requires poller.Valid() && this in poller.channels
      modifies this, poller
      ensures poller.Valid() && poller.Touched(this)
      ensures poller.View(this) == Update(old(poller.View(this)).(events := mask))
    {
      events := mask;
      poller.UpdateChannel(this);
    }

    /** enableReading, enableWriting, disableAll and the others: change the mask, then update(). */
    method Change(setter: Setter, poller: EPollPoller)
      requires poller.Valid() && this in poller.channels
      modifies this, poller
      ensures poller.Valid() && poller.Touched(this)
      ensures poller.View(this) == Set(old(poller.View(this)), setter)
    {
      Assign(NewEvents(events, setter), poller);
    }

    /** remove() as written: EventLoop::removeChannel forwards to updateChannel. */
    method Remove(poller: EPollPoller)
      requires poller.Valid() && this in poller.channels
      modifies this, poller
      ensures poller.Valid() && poller.Touched(this)
      ensures poller.View(this) == Step(old(poller.View(this)), OpRemoveWritten)
    {
      poller.UpdateChannel(this);
    }

    /** remove() as intended: forwarded to removeChannel. */
    method Unregister(poller: EPollPoller)
      requires poller.Valid() && this in poller.channels
      modifies this, poller
      ensures poller.Valid() && poller.Touched(this)
      ensures poller.View(this) == Step(old(poller.View(this)), OpRemove)
    {
      poller.RemoveChannel(this);
    }
  }

  class EPollPoller {
    var channelHash: map<int, Channel>
    var resultSize: nat  // Resultevents_.size()

    ghost var kernel: map<int, Registered>
    ghost var channels: set<Channel>  // the channels of this loop
    ghost var owner: map<int, Channel>  // which of them has a descriptor
    ghost var peak: nat               // the most descriptors ever registered at once
    ghost var doublings: nat

    ghost function View(c: Channel): Reg
      reads `channelHash, `kernel, c
    {
      Reg(c.status, c.events,
          c.fd in channelHash && channelHash[c.fd] == c,
          if c.fd in kernel && kernel[c.fd].channel == c then Present(kernel[c.fd].mask) else Absent)
    }

    /** Distinct descriptors, and nothing but this loop's channels in either table. */
    ghost predicate Tables()
      reads `channels, `owner, `channelHash, `kernel
    {
      && (forall c :: c in channels ==> c.fd in owner && owner[c.fd] == c)
      && (forall fd :: fd in channelHash ==> channelHash[fd] in channels && channelHash[fd].fd == fd)
      && (forall fd :: fd in kernel ==> kernel[fd].channel in channels && kernel[fd].channel.fd == fd)
    }

    /** The array has 16 * 2^k elements and has outgrown neither 16 nor twice the peak. */
    ghost predicate ArrayInv()
      reads `resultSize, `doublings, `kernel, `peak
    {
      && resultSize == 16 * Pow2(doublings)
      && |kernel| <= peak
      && (resultSize <= 16 || resultSize <= 2 * peak)
    }

    ghost predicate AllMirror()
      reads `channels, `channelHash, `kernel, channels
    {
      forall c :: c in channels ==> Mirror(View(c))
    }

    ghost predicate Valid()
      reads this, channels
    {
      Tables() && ArrayInv() && AllMirror()
    }

    /** Only `c` has changed, and only `c`'s entries in the tables. */
    twostate predicate Touched(c: Channel)
      reads this, channels, c
    {
      && channels == old(channels) && owner == old(owner)
      && resultSize == old(resultSize)
      && (forall d :: d in channels && d != c ==> View(d) == old(View(d)))
      && c.revents == old(c.revents)
    }

    constructor (ghost channels: set<Channel>, ghost owner: map<int, Channel>)
      requires forall c :: c in channels ==> c.fd in owner && owner[c.fd] == c
      requires forall c :: c in channels ==> c.status == New && c.events == NONE_EVENT
      ensures Valid() && this.channels == channels && resultSize == 16
      ensures forall c :: c in channels ==> View(c) == UNREGISTERED
    {
      channelHash, resultSize := map[], 16;
      kernel, peak, doublings := map[], 0, 0;
      this.channels, this.owner := channels, owner;
    }

    /** Poller::hasChannel. */
    method HasChannel(c: Channel) returns (b: bool)
      requires Valid() && c in channels
      ensures b <==> c.status != New
    {
      b := c.fd in channelHash && channelHash[c.fd] == c;
      assert Mirror(View(c));
    }

    /** epoll_ctl, called only where it succeeds. */
    ghost method Control(ctl: Ctl, c: Channel)
      requires Tables() && ArrayInv() && c in channels
      requires Legal(ctl, View(c).kernel)
      modifies `kernel, `peak
      ensures Tables() && ArrayInv()
      ensures kernel == if ctl.Del? then old(kernel) - {c.fd}
                        else old(kernel)[c.fd := Registered(c.events, c)]
    {
      if ctl.Del? {
        kernel := kernel - {c.fd};
        assert |kernel.Keys| <= |old(kernel).Keys| by { SubsetCardinality(kernel.Keys, old(kernel).Keys); }
      } else {
        kernel := kernel[c.fd := Registered(c.events, c)];
        peak := if |kernel| > peak then |kernel| else peak;
      }
    }

    /** With the tables changed only at `c.fd`, the other channels look as before. */
    twostate lemma OthersUntouched(c: Channel)
      requires old(Tables()) && c in channels
      requires channels == old(channels) && owner == old(owner)
      requires channelHash - {c.fd} == old(channelHash) - {c.fd}
      requires kernel - {c.fd} == old(kernel) - {c.fd}
      requires forall d :: d in channels && d != c ==> d.status == old(d.status) && d.events == old(d.events)
      ensures forall d :: d in channels && d != c ==> View(d) == old(View(d))
    {
      forall d | d in channels && d != c ensures View(d) == old(View(d)) {
        var fd := d.fd;
        assert fd != c.fd;
        assert fd in channelHash - {c.fd} <==> fd in old(channelHash) - {c.fd};
        assert fd in kernel - {c.fd} <==> fd in old(kernel) - {c.fd};
        if fd in kernel { assert (kernel - {c.fd})[fd] == (old(kernel) - {c.fd})[fd]; }
        if fd in channelHash { assert (channelHash - {c.fd})[fd] == (old(channelHash) - {c.fd})[fd]; }
      }
    }

    /** One channel re-mirrored, the others untouched: all mirror. */
    twostate lemma StillMirror(c: Channel)
      requires c in channels && channels == old(channels)
      requires forall d :: d in channels && d != c ==> old(Mirror(View(d)))
      requires forall d :: d in channels && d != c ==> View(d) == old(View(d))
      requires Mirror(View(c))
      ensures AllMirror()
    {
    }

    method Hash(c: Channel)
      requires Tables() && c in channels
      modifies `channelHash
      ensures Tables() && channelHash == old(channelHash)[c.fd := c]
    {
      channelHash := channelHash[c.fd := c];
    }

    method Unhash(c: Channel)
      requires Tables() && c in channels
      modifies `channelHash
      ensures Tables() && channelHash == old(channelHash) - {c.fd}
    {
      channelHash := channelHash - {c.fd};
    }

    /** Lines 70-71: added to the interest set. */
    method Register(c: Channel)
      requires Tables() && ArrayInv() && c in channels && View(c).kernel.Absent?
      modifies `kernel, `peak, c`status
      ensures Tables() && ArrayInv()
      ensures View(c) == Reg(Added, c.events, old(View(c)).hashed, Present(c.events))
      ensures kernel - {c.fd} == old(kernel) - {c.fd}
    {
      c.status := Added;
      Control(Add, c);
    }

    /** updateChannel, lines 65-71: a channel that is not in the interest set. */
    method Enroll(c: Channel)
      requires Tables() && ArrayInv() && c in channels && Linked(View(c)) && c.status != Added
      modifies `channelHash, `kernel, `peak, c`status
      ensures Tables() && ArrayInv()
      ensures View(c) == Update(old(View(c)))
      ensures channelHash - {c.fd} == old(channelHash) - {c.fd}
      ensures kernel - {c.fd} == old(kernel) - {c.fd}
    {
      ghost var was := View(c);
      if c.status == New {
        Hash(c);
      }
      assert View(c) == was.(hashed := true);
      Register(c);
    }

    /** Lines 74-76: one that is, and wants nothing any more. */
    method Withdraw(c: Channel)
      requires Tables() && ArrayInv() && c in channels && Linked(View(c))
      requires c.status == Added && c.events == NONE_EVENT
      modifies `kernel, `peak, c`status
      ensures Tables() && ArrayInv()
      ensures View(c) == Update(old(View(c)))
      ensures kernel - {c.fd} == old(kernel) - {c.fd}
    {
      Control(Del, c);
      c.status := Deleted;
    }

    /** Line 78: one whose mask has changed. */
    method Amend(c: Channel)
      requires Tables() && ArrayInv() && c in channels && Linked(View(c))
      requires c.status == Added && c.events != NONE_EVENT
      modifies `kernel, `peak
      ensures Tables() && ArrayInv()
      ensures View(c) == Update(old(View(c)))
      ensures kernel - {c.fd} == old(kernel) - {c.fd}
    {
      Control(Mod, c);
    }

    /** The statements of updateChannel. */
    method Reconcile(c: Channel)
      requires Tables() && ArrayInv() && c in channels && Linked(View(c))
      modifies `channelHash, `kernel, `peak, c`status
      ensures Tables() && ArrayInv()
      ensures View(c) == Update(old(View(c)))
      ensures channelHash - {c.fd} == old(channelHash) - {c.fd}
      ensures kernel - {c.fd} == old(kernel) - {c.fd}
    {
      if c.status == New || c.status == Deleted {
        Enroll(c);
      } else if c.events == NONE_EVENT {
        Withdraw(c);
      } else {
        Amend(c);
      }
    }

    method UpdateChannel(c: Channel)
      requires Tables() && ArrayInv() && c in channels && Linked(View(c))
      requires forall d :: d in channels && d != c ==> Mirror(View(d))
      modifies this, c
      ensures Valid() && Touched(c)
      ensures View(c) == Update(old(View(c)))
    {
      UpdateRestoresMirror(View(c));
      Reconcile(c);
      OthersUntouched(c);
      StillMirror(c);
    }

    /** Lines 88-90: out of the interest set, if it is there. */
    method Expel(c: Channel)
      requires Tables() && ArrayInv() && c in channels
      requires c.status.Added? <==> View(c).kernel.Present?
      modifies `kernel, `peak
      ensures Tables() && ArrayInv()
      ensures View(c) == old(View(c)).(kernel := Absent)
      ensures kernel - {c.fd} == old(kernel) - {c.fd}
    {
      if c.status == Added {
        Control(Del, c);
      }
    }

    /** The statements of removeChannel. */
    method Discard(c: Channel)
      requires Tables() && ArrayInv() && c in channels && Linked(View(c))
      modifies `channelHash, `kernel, `peak, c`status
      ensures Tables() && ArrayInv()
      ensures View(c) == Registration.Remove(old(View(c)))
      ensures channelHash - {c.fd} == old(channelHash) - {c.fd}
      ensures kernel - {c.fd} == old(kernel) - {c.fd}
    {
      ghost var was := View(c);
      Unhash(c);
      assert View(c) == was.(hashed := false);
      Expel(c);
      c.status := New;
    }

    method RemoveChannel(c: Channel)
      requires Valid() && c in channels
      modifies this, c
      ensures Valid() && Touched(c)
      ensures View(c) == Registration.Remove(old(View(c)))
    {
      assert Mirror(View(c));
      RemoveForgets(View(c));
      Discard(c);
      OthersUntouched(c);
      StillMirror(c);
    }

    /** What epoll_wait may deliver: registered channels, each once, within mask plus ERR and HUP. */
    ghost predicate Deliverable(reports: seq<Report>)
      reads this, channels
    {
      && |reports| <= resultSize
      && (forall i :: 0 <= i < |reports| ==>
            && reports[i].channel.fd in kernel
            && kernel[reports[i].channel.fd].channel == reports[i].channel
            && Reportable(reports[i].revents, kernel[reports[i].channel.fd].mask))
      && (forall i, j :: 0 <= i < j < |reports| ==> reports[i].channel != reports[j].channel)
    }

    /** A channel fit to be dispatched: registered, with nothing in `revents` it did not ask for. */
    ghost predicate Sound(c: Channel)
      reads this, channels, c
    {
      c in channels && c.status == Added && Reportable(c.revents, c.events)
    }

    /**
     poll and fillActiveChannels: the active list, empty on entry, becomes exactly the
     reported channels in order, all registered; the array doubles when it was filled.
     */
    method Poll(reports: seq<Report>) returns (active: seq<Channel>)
      requires Valid() && Deliverable(reports)
      modifies `resultSize, `doublings, channels`revents
      ensures Valid()
      ensures resultSize == 16 * Pow2(doublings) && (resultSize <= 16 || resultSize <= 2 * peak)
      ensures |active| == |reports|
      ensures forall i :: 0 <= i < |active| ==>
                active[i] == reports[i].channel && active[i].revents == reports[i].revents
      ensures forall i :: 0 <= i < |active| ==> Sound(active[i])
      ensures forall c :: c in channels ==> View(c) == old(View(c))
      ensures forall c :: c in channels && c !in active ==> c.revents == old(c.revents)
      ensures resultSize == if |reports| > 0 && |reports| == old(resultSize)
                            then 2 * old(resultSize) else old(resultSize)
    {
      active := FillActiveChannels(reports);
      ReportedAreSound(active, reports);
      if |reports| > 0 && |reports| == resultSize {
        Double(reports);
      }
    }

    /** The resize: a full array means that many descriptors are registered right now. */
    method Double(reports: seq<Report>)
      requires Tables() && ArrayInv() && Deliverable(reports) && |reports| == resultSize
      modifies `resultSize, `doublings
      ensures ArrayInv() && resultSize == 2 * old(resultSize)
    {
      ReportsBounded(reports);
      resultSize := resultSize * 2;
      doublings := doublings + 1;
    }

    lemma ReportedAreSound(active: seq<Channel>, reports: seq<Report>)
      requires Tables() && AllMirror() && Deliverable(reports) && |active| == |reports|
      requires forall i :: 0 <= i < |active| ==>
                 active[i] == reports[i].channel && active[i].revents == reports[i].revents
      ensures forall i :: 0 <= i < |active| ==> Sound(active[i])
    {
      forall i | 0 <= i < |active| ensures Sound(active[i]) {
        assert kernel[active[i].fd].channel in channels;
        assert Mirror(View(active[i]));
      }
    }

    method FillActiveChannels(reports: seq<Report>) returns (active: seq<Channel>)
      requires Valid() && Deliverable(reports)
      modifies channels`revents
      ensures Valid() && Deliverable(reports)
      ensures forall c :: c in channels ==> View(c) == old(View(c))
      ensures |active| == |reports|
      ensures forall i :: 0 <= i < |active| ==>
                active[i] == reports[i].channel && active[i].revents == reports[i].revents
      ensures forall c :: c in channels && c !in active ==> c.revents == old(c.revents)
    {
      active := [];
      var i := 0;
      while i < |reports|
        invariant 0 <= i <= |reports| && |active| == i
        invariant forall k :: 0 <= k < i ==>
                    active[k] == reports[k].channel && active[k].revents == reports[k].revents
        invariant forall c :: c in channels && c !in active ==> c.revents == old(c.revents)
      {
        var channel := reports[i].channel;
        assert kernel[channel.fd].channel in channels;
        channel.revents := reports[i].revents;
        active := active + [channel];
        i := i + 1;
      }
    }

    /** No more reports than registered descriptors. */
    lemma ReportsBounded(reports: seq<Report>)
      requires Tables() && Deliverable(reports)
      ensures |reports| <= |kernel|
    {
      var fds := seq(|reports|, i requires 0 <= i < |reports| => reports[i].channel.fd);
      DistinctCardinality(fds, kernel.Keys);
    }
  }

  ghost function Pow2(n: nat): nat {
    if n == 0 then 1 else 2 * Pow2(n - 1)
  }

  lemma {:induction false} SubsetCardinality<T>(a: set<T>, b: set<T>)
    requires a <= b
    ensures |a| <= |b|
  {
    if a != {} {
      var x :| x in a;
      SubsetCardinality(a - {x}, b - {x});
    }
  }

  lemma {:induction false} DistinctCardinality<T>(xs: seq<T>, s: set<T>)
    requires forall i :: 0 <= i < |xs| ==> xs[i] in s
    requires forall i, j :: 0 <= i < j < |xs| ==> xs[i] != xs[j]
    ensures |xs| <= |s|
  {
    if xs != [] {
      DistinctCardinality(xs[1..], s - {xs[0]});
    }
  }
}
