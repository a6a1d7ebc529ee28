/**
 The movable `Socket` of NPtest/simple/TcpSocket.h: every descriptor the process has open
 is owned by exactly one live object, and is closed exactly once.
 */
module SocketOwnership {

  /** The process's descriptor table, with a history of opens and closes. */
  class Descriptors {
    ghost var open: set<int>
    ghost var everOpened: multiset<int>
    ghost var everClosed: multiset<int>

    constructor ()
      ensures open == {} && everOpened == multiset{} && everClosed == multiset{}
    {
      open, everOpened, everClosed := {}, multiset{}, multiset{};
    }

    /** socket() or accept(): a descriptor that is not open, or -1. */
    ghost method Open(fd: int)
      requires fd == -1 || (fd >= 0 && fd !in open)
      modifies this
      ensures open == (if fd == -1 then old(open) else old(open) + {fd})
      ensures everOpened == (if fd == -1 then old(everOpened) else old(everOpened) + multiset{fd})
      ensures everClosed == old(everClosed)
    {
      if fd != -1 {
        open, everOpened := open + {fd}, everOpened + multiset{fd};
      }
    }

    /** close(): only ever on an open descriptor. */
    ghost method Close(fd: int)
      requires fd in open
      modifies this
      ensures open == old(open) - {fd}
      ensures everClosed == old(everClosed) + multiset{fd} && everOpened == old(everOpened)
    {
      open, everClosed := open - {fd}, everClosed + multiset{fd};
    }
  }

  class Socket {
    var fd: int

    constructor (fd: int)
      ensures this.fd == fd
    {
      this.fd := fd;
    }
  }

  /** The live sockets, and which of the open descriptors each of them owns. */
  class Owners {
    const table: Descriptors
    ghost var live: set<Socket>
    ghost var ownerOf: map<int, Socket>

    /** No two sockets own one descriptor, and none owns a closed one; some may have no owner yet. */
    ghost predicate Valid()
      reads this, table, live
    {
      && ownerOf.Keys <= table.open
      && (forall fd :: fd in ownerOf ==> fd != -1 && ownerOf[fd] in live && ownerOf[fd].fd == fd)
      && (forall s :: s in live && s.fd != -1 ==> s.fd in ownerOf && ownerOf[s.fd] == s)
      && table.everOpened == multiset(table.open) + table.everClosed
    }

    /** ... and, unless a descriptor was obtained and not yet wrapped, all of them have one. */
    ghost predicate AllOwned()
      reads this, table, live
    {
      Valid() && ownerOf.Keys == table.open
    }

    /** The live sockets that have this descriptor. */
    ghost function Owning(fd: int): set<Socket>
      reads this, live
    {
      set s | s in live && s.fd == fd
    }

    constructor ()
      ensures AllOwned() && live == {} && fresh(table)
    {
      table := new Descriptors();
      live, ownerOf := {}, map[];
    }

    /** socket() or accept(): a descriptor that nobody owns yet, or -1. */
    method Obtain(fd: int)
      requires Valid() && (fd == -1 || (fd >= 0 && fd !in table.open))
      modifies table
      ensures Valid() && table.open == old(table.open) + (if fd == -1 then {} else {fd})
      ensures table.everClosed == old(table.everClosed)
    {
      table.Open(fd);
    }

    /**
     Socket(fd), for any number at all.  Ownership stays sound if and only if that is -1 or
     an open descriptor that no live socket owns.
     */
    method Construct(fd: int) returns (s: Socket)
      requires Valid()
      modifies this
      ensures fresh(s) && s.fd == fd && live == old(live) + {s}
      ensures Valid() <==> fd == -1 || (fd in table.open && forall t :: t in old(live) ==> t.fd != fd)
      ensures Valid() ==> ownerOf.Keys == old(ownerOf.Keys) + (if fd == -1 then {} else {fd})
    {
      s := new Socket(fd);
      assert fd in ownerOf ==> ownerOf[fd] in live && ownerOf[fd].fd == fd;
      live := live + {s};
      if fd != -1 && fd in table.open && fd !in ownerOf {
        ownerOf := ownerOf[fd := s];
      }
    }

    /** Socket(Socket&& other). */
    method MoveConstruct(other: Socket) returns (s: Socket)
      requires Valid() && other in live
      modifies this, other
      ensures old(AllOwned()) ==> AllOwned()
      ensures Valid() && fresh(s) && live == old(live) + {s}
      ensures s.fd == old(other.fd) && other.fd == -1
    {
      s := new Socket(-1);
      live := live + {s};
      Steal(s, other);
    }

    /** operator=(Socket&& other), self-assignment included. */
    method MoveAssign(target: Socket, other: Socket)
      requires Valid() && target in live && other in live
      modifies this, table, target, other
      ensures old(AllOwned()) ==> AllOwned()
      ensures Valid() && live == old(live)
      ensures target == other ==> target.fd == old(target.fd)
      ensures target != other ==> target.fd == old(other.fd) && other.fd == -1
      ensures table.open == old(table.open)
                            - (if target == other || old(target.fd) == -1 then {} else {old(target.fd)})
      ensures table.everOpened == old(table.everOpened)
    {
      if target != other {
        Release(target);
        Steal(target, other);
      }
    }

    /** fd = other.fd; other.fd = -1, into a socket that owns nothing. */
    method Steal(target: Socket, other: Socket)
      requires Valid() && target in live && other in live && target != other && target.fd == -1
      modifies this, target, other
      ensures old(AllOwned()) ==> AllOwned()
      ensures Valid() && live == old(live)
      ensures target.fd == old(other.fd) && other.fd == -1
    {
      target.fd := other.fd;
      other.fd := -1;
      if target.fd != -1 {
        ownerOf := ownerOf[target.fd := target];
      }
    }

    /** close(fd) unless there is nothing to close. */
    method Release(s: Socket)
      requires Valid() && s in live
      modifies this, table, s
      ensures Valid() && live == old(live) && s.fd == -1
      ensures table.open == old(table.open) - (if old(s.fd) == -1 then {} else {old(s.fd)})
      ensures table.everOpened == old(table.everOpened)
      ensures ownerOf == old(ownerOf) - {old(s.fd)}
    {
      if s.fd != -1 {
        assert ownerOf[s.fd] == s;
        table.Close(s.fd);
        ownerOf := ownerOf - {s.fd};
        s.fd := -1;
      }
    }

    /** ~Socket(). */
    method Destroy(s: Socket)
      requires Valid() && s in live
      modifies this, table, s
      ensures old(AllOwned()) ==> AllOwned()
      ensures Valid() && live == old(live) - {s}
      ensures table.open == old(table.open) - (if old(s.fd) == -1 then {} else {old(s.fd)})
      ensures table.everOpened == old(table.everOpened)
    {
      Release(s);
      live := live - {s};
    }

    /** TcpServer::acceptClient; null stands for the exception, after which nothing is owned. */
    method AcceptClient(clientFd: int) returns (s: Socket?)
      requires Valid() && (clientFd < 0 || clientFd !in table.open)
      modifies this, table
      ensures old(AllOwned()) ==> AllOwned()
      ensures Valid() && (s == null <==> clientFd < 0)
      ensures s == null ==> live == old(live) && table.open == old(table.open)
      ensures s != null ==> fresh(s) && s.fd == clientFd && live == old(live) + {s}
                            && table.open == old(table.open) + {clientFd}
      ensures table.everClosed == old(table.everClosed)
    {
      if clientFd < 0 {
        s := null;
      } else {
        Obtain(clientFd);
        s := Construct(clientFd);
      }
    }

    /** However few of the open descriptors have an owner, none has two and no closed one has any. */
    lemma OwnersAreUnique(fd: int)
      requires Valid() && fd != -1
      ensures fd in ownerOf ==> fd in table.open && Owning(fd) == {ownerOf[fd]}
      ensures fd !in ownerOf ==> Owning(fd) == {}
    {
    }

    /**
     With every open descriptor owned: each has exactly one owner, and each descriptor has
     been opened as often as it was closed, plus once for its owner.
     */
    lemma OneOwnerEach(fd: int)
      requires AllOwned() && fd != -1
      ensures fd in table.open <==> exists s :: s in live && s.fd == fd
      ensures |Owning(fd)| == if fd in table.open then 1 else 0
      ensures table.everOpened[fd] == table.everClosed[fd] + |Owning(fd)|
      ensures |table.everOpened| == |ownerOf| + |table.everClosed|
    {
      OwnersAreUnique(fd);
      if fd in table.open {
        assert ownerOf[fd] in live;
      }
      assert |multiset(table.open)| == |table.open| == |ownerOf.Keys|;
    }
  }
}
