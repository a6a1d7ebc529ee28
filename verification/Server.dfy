/**
 `TcpServer` as written (Netmux/TcpServer.cc), on its own thread: the connection map, the
 choice of a loop, and the closures it posts, in the order it posts them.  What the loops
 make of those closures is the subject of `Lifecycle`.
 */
module Servers {
  import opened ThreadPool
  import opened Lifecycle

  /** A closure handed to a loop by postInLoop or queueInLoop. */
  datatype Post = Post(loop: LoopId, job: Job)

  /** How many of them are `loop`. */
  function CountOn(homes: seq<LoopId>, loop: LoopId): nat {
    if homes == [] then 0
    else CountOn(homes[..|homes| - 1], loop)
         + (if homes[|homes| - 1] == loop then 1 else 0)
  }

  predicate RoundRobin(loops: seq<LoopId>, mainLoop: LoopId, homes: seq<LoopId>) {
    forall k :: 0 <= k < |homes| ==> homes[k] == Pick(loops, mainLoop, k)
  }

  lemma {:induction false} CountIsChosen(loops: seq<LoopId>, mainLoop: LoopId, homes: seq<LoopId>, j: nat)
    requires j < |loops| && RoundRobin(loops, mainLoop, homes)
    requires forall a, b :: 0 <= a < b < |loops| ==> loops[a] != loops[b]
    ensures CountOn(homes, loops[j]) == Chosen(j, |loops|, |homes|)
  {
    if homes != [] {
      var k := |homes| - 1;
      var front := homes[..k];
      assert forall i :: 0 <= i < k ==> front[i] == homes[i];
      CountIsChosen(loops, mainLoop, front, j);
      assert homes[k] == loops[k % |loops|];
    }
  }

  /** Of all connections ever accepted, no loop was given two more than another. */
  lemma AssignedEvenly(loops: seq<LoopId>, mainLoop: LoopId, homes: seq<LoopId>, i: nat, j: nat)
    requires i < |loops| && j < |loops| && RoundRobin(loops, mainLoop, homes)
    requires forall a, b :: 0 <= a < b < |loops| ==> loops[a] != loops[b]
    ensures CountOn(homes, loops[i]) <= CountOn(homes, loops[j]) + 1
  {
    CountIsChosen(loops, mainLoop, homes, i);
    CountIsChosen(loops, mainLoop, homes, j);
    RoundRobinIsFair(i, j, |loops|, |homes|);
  }

  /**
   Every closure for a connection goes to that connection's loop; its connectEstablished
   is posted once, and before anything else.
   */
  predicate PostsInOrder(posts: seq<Post>, homes: seq<LoopId>) {
    && (forall i :: 0 <= i < |posts| ==>
          && 1 <= posts[i].job.c <= |homes|
          && posts[i].loop == homes[posts[i].job.c - 1])
    && (forall i, j :: 0 <= i < j < |posts| && posts[j].job.Establish? ==> posts[i].job.c != posts[j].job.c)
    && (forall c :: 1 <= c <= |homes| ==> Post(homes[c - 1], Establish(c)) in posts)
  }

  /** A new connection's first post. */
  lemma EstablishPosted(posts: seq<Post>, homes: seq<LoopId>, loop: LoopId)
    requires PostsInOrder(posts, homes)
    ensures PostsInOrder(posts + [Post(loop, Establish(|homes| + 1))], homes + [loop])
  {
    var post := Post(loop, Establish(|homes| + 1));
    var posts', homes' := posts + [post], homes + [loop];
    assert posts'[|posts|] == post;
    forall d | 1 <= d <= |homes'| ensures Post(homes'[d - 1], Establish(d)) in posts' {
      if d <= |homes| { assert Post(homes[d - 1], Establish(d)) in posts; }
    }
  }

  /** Another post for a connection that has had its first. */
  lemma DestroyPosted(posts: seq<Post>, homes: seq<LoopId>, c: ConnId)
    requires PostsInOrder(posts, homes) && 1 <= c <= |homes|
    ensures PostsInOrder(posts + [Post(homes[c - 1], Destroy(c))], homes)
  {
    forall d | 1 <= d <= |homes|
      ensures Post(homes[d - 1], Establish(d)) in posts + [Post(homes[c - 1], Destroy(c))]
    {
      assert Post(homes[d - 1], Establish(d)) in posts;
    }
  }

  /** `tail` destroys exactly the connections of `was` that are not in `left`, one post each. */
  ghost predicate Destroyed(was: map<ConnId, LoopId>, left: map<ConnId, LoopId>, tail: seq<Post>) {
    && (forall c :: c in left ==> c in was && left[c] == was[c])
    && |tail| + |left| == |was|
    && (forall c :: c in was && c !in left ==> Post(was[c], Destroy(c)) in tail)
    && (forall post :: post in tail ==> post.job.Destroy? && post.job.c in was)
  }

  lemma DestroyedOneMore(was: map<ConnId, LoopId>, left: map<ConnId, LoopId>, tail: seq<Post>, c: ConnId)
    requires Destroyed(was, left, tail) && c in left
    ensures Destroyed(was, left - {c}, tail + [Post(left[c], Destroy(c))])
    ensures |left - {c}| < |left|
  {
    var left' := left - {c};
    assert left.Keys == left'.Keys + {c};
    assert |left.Keys| == |left'.Keys| + 1;
  }

  lemma Snoc<T>(a: seq<T>, b: seq<T>, x: T)
    ensures a + b + [x] == a + (b + [x])
  {
  }

  class TcpServer {
    const threadPool: EventLoopThreadPool
    var nextConnId: nat
    var connections: map<ConnId, LoopId>  // each connection's getLoop()
    var posts: seq<Post>
    ghost var homes: seq<LoopId>       // the loop of connection 1, 2, ...

    ghost predicate Valid()
      reads this, threadPool
    {
      && threadPool.Valid()
      && nextConnId == |homes| + 1 && threadPool.picks == |homes|
      && RoundRobin(threadPool.loops, threadPool.mainLoop, homes)
      && PostsInOrder(posts, homes)
      && (forall c :: c in connections ==> 1 <= c <= |homes| && connections[c] == homes[c - 1])
    }

    constructor (threadPool: EventLoopThreadPool)
      requires threadPool.Valid() && threadPool.picks == 0
      ensures Valid() && this.threadPool == threadPool && connections == map[] && posts == []
    {
      this.threadPool := threadPool;
      nextConnId, connections, posts, homes := 1, map[], [], [];
    }

    method NewConnection() returns (c: ConnId)
      requires Valid()
      modifies this, threadPool
      ensures Valid()
      ensures c == old(nextConnId) && c !in old(connections)
      ensures connections == old(connections)[c := Pick(threadPool.loops, threadPool.mainLoop, c - 1)]
      ensures posts == old(posts) + [Post(connections[c], Establish(c))]
    {
      var ioLoop := threadPool.GetNextLoop();
      EstablishPosted(posts, homes, ioLoop);
      c := nextConnId;
      nextConnId := nextConnId + 1;
      connections := connections[c := ioLoop];
      posts := posts + [Post(ioLoop, Establish(c))];
      homes := homes + [ioLoop];
    }

    /** Forget the connection here, and have its loop destroy it. */
    method DropAndPost(c: ConnId, ioLoop: LoopId)
      requires Valid() && 1 <= c < nextConnId && ioLoop == homes[c - 1]
      modifies this
      ensures Valid()
      ensures connections == old(connections) - {c}
      ensures posts == old(posts) + [Post(ioLoop, Destroy(c))]
      ensures nextConnId == old(nextConnId) && homes == old(homes)
    {
      DestroyPosted(posts, homes, c);
      connections := connections - {c};
      posts := posts + [Post(ioLoop, Destroy(c))];
    }

    /** What removeConnection was meant to post; the pointer keeps the connection, so its loop. */
    method RemoveConnectionInLoop(c: ConnId, ioLoop: LoopId)
      requires Valid() && 1 <= c < nextConnId && ioLoop == homes[c - 1]
      modifies this
      ensures Valid()
      ensures connections == old(connections) - {c}
      ensures posts == old(posts) + [Post(ioLoop, Destroy(c))]
      ensures nextConnId == old(nextConnId)
    {
      DropAndPost(c, ioLoop);
    }

    /** ~TcpServer: one connectDestroyed for each connection still in the map, on its loop. */
    method Destruct()
      requires Valid()
      modifies this
      ensures Valid() && connections == map[]
      ensures old(posts) <= posts && |posts| == |old(posts)| + |old(connections)|
      ensures forall c :: c in old(connections) ==>
                Post(old(connections)[c], Destroy(c)) in posts[|old(posts)|..]
      ensures forall post :: post in posts[|old(posts)|..] ==>
                post.job.Destroy? && post.job.c in old(connections)
    {
      ghost var was, before, tail: seq<Post> := connections, posts, [];
      while connections != map[]
        invariant Valid() && posts == before + tail
        invariant Destroyed(was, connections, tail)
        decreases |connections|
      {
        var c :| c in connections;
        DestroyedOneMore(was, connections, tail, c);
        ghost var post := Post(connections[c], Destroy(c));
        DropAndPost(c, connections[c]);
        Snoc(before, tail, post);
        tail := tail + [post];
      }
      assert posts[|before|..] == tail;
    }
  }
}
