/**
 `EventLoopThreadPool` (Netmux/reactor/EventLoopThreadPool.cc): round-robin assignment of
 connections to loops, and how evenly it spreads them.
 */
module ThreadPool {

  /** A loop, by identity. */
  type LoopId = nat

  class EventLoopThreadPool {
    const mainLoop: LoopId
    var started: bool
    var threads: nat           // threads_.size()
    var loops: seq<LoopId>
    var next: nat
    ghost var picks: nat  // calls of getNextLoop since the loops were started

    ghost predicate Valid()
      reads this
    {
      next == (if loops == [] then 0 else picks % |loops|)
    }

    constructor (mainLoop: LoopId)
      ensures Valid() && this.mainLoop == mainLoop && loops == [] && picks == 0 && !started
    {
      this.mainLoop, started, threads, loops, next, picks := mainLoop, false, 0, [], 0, 0;
    }

    /**
     start(), called once, before any connection: `made` is what startLoop returned, thread
     by thread.  The threads run the init callback themselves; a pool without threads has it
     run on the main loop, exactly if there is one.
     */
    method Start(made: seq<LoopId>, hasCallback: bool) returns (initialized: set<LoopId>)
      requires Valid() && loops == [] && picks == 0 && threads == 0
      modifies this
      ensures Valid() && started && loops == made && threads == |made| && picks == 0
      ensures initialized == (if made == [] && hasCallback then {mainLoop} else {})
    {
      started := true;
      var i := 0;
      while i < |made|
        invariant 0 <= i <= |made| && loops == made[..i] && threads == i && next == 0 && picks == 0 && started
      {
        threads := threads + 1;
        loops := loops + [made[i]];
        i := i + 1;
      }
      initialized := {};
      if |made| == 0 && hasCallback {
        initialized := {mainLoop};
      }
    }

    method GetNextLoop() returns (loop: LoopId)
      requires Valid()
      modifies this
      ensures Valid() && loops == old(loops) && picks == old(picks) + 1
      ensures loop == Pick(loops, mainLoop, old(picks))
    {
      loop := mainLoop;
      if loops != [] {
        loop := loops[next];
        NextIndex(picks, |loops|);
        next := (next + 1) % |loops|;
      }
      picks := picks + 1;
    }
  }

  /** The loop the k-th call hands out. */
  function Pick(loops: seq<LoopId>, mainLoop: LoopId, k: nat): LoopId {
    if loops == [] then mainLoop else loops[k % |loops|]
  }

  lemma NextIndex(k: nat, n: nat)
    requires n > 0
    ensures (k % n + 1) % n == (k + 1) % n
  {
    DivisionStep(k, n);
    if k % n == n - 1 {
      assert (k + 1) % n == 0;
    } else {
      assert (k + 1) % n == k % n + 1;
    }
  }

  /** Quotient and remainder of the successor. */
  lemma DivisionStep(k: nat, n: nat)
    requires n > 0
    ensures if k % n == n - 1
            then (k + 1) / n == k / n + 1 && (k + 1) % n == 0
            else (k + 1) / n == k / n && (k + 1) % n == k % n + 1
  {
    var q, r := k / n, k % n;
    assert k == q * n + r;
    if r == n - 1 {
      assert k + 1 == (q + 1) * n;
      Unique(k + 1, n, q + 1, 0);
    } else {
      Unique(k + 1, n, q, r + 1);
    }
  }

  lemma Unique(k: nat, n: nat, q: nat, r: nat)
    requires n > 0 && k == q * n + r && r < n
    ensures k / n == q && k % n == r
  {
    var d := k / n - q;
    assert d * n == r - k % n;
    ScaledBy(d, n);
  }

  lemma ScaledBy(d: int, n: nat)
    ensures d >= 1 ==> d * n >= n
    ensures d <= -1 ==> d * n <= -(n as int)
  {
  }

  /** How often position j is chosen by the first k calls on n loops. */
  function Chosen(j: nat, n: nat, k: nat): nat
    requires n > 0
  {
    if k == 0 then 0
    else Chosen(j, n, k - 1) + (if (k - 1) % n == j then 1 else 0)
  }

  /** The exact share of each position: the full rounds, and one more for those already served. */
  lemma {:induction false} ShareOf(j: nat, n: nat, k: nat)
    requires j < n
    ensures Chosen(j, n, k) == k / n + (if j < k % n then 1 else 0)
  {
    if k == 0 {
      assert 0 / n == 0;
    } else {
      ShareOf(j, n, k - 1);
      DivisionStep(k - 1, n);
    }
  }

  /** Fairness: after any number of calls no loop is more than one connection ahead of another. */
  lemma RoundRobinIsFair(i: nat, j: nat, n: nat, k: nat)
    requires i < n && j < n
    ensures k / n <= Chosen(j, n, k) <= (k + n - 1) / n
    ensures Chosen(i, n, k) <= Chosen(j, n, k) + 1
  {
    ShareOf(i, n, k);
    ShareOf(j, n, k);
    CeilingOf(k, n);
  }

  lemma CeilingOf(k: nat, n: nat)
    requires n > 0
    ensures (k + n - 1) / n == k / n + (if k % n == 0 then 0 else 1)
  {
    var q, r := k / n, k % n;
    assert k == q * n + r;
    if r == 0 {
      Unique(k + n - 1, n, q, n - 1);
    } else {
      assert k + n - 1 == (q + 1) * n + (r - 1);
      Unique(k + n - 1, n, q + 1, r - 1);
    }
  }
}
