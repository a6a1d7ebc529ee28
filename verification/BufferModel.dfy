/**
 What a `Buffer` (Netmux/Buffer.h, Netmux/Buffer.cc) means: the length of its vector,
 where the readable region starts, and the readable bytes.  The laws of the byte queue
 are proved here, over whole sequences of calls.
 */
module BufferModel {
  newtype byte = x: int | 0 <= x < 256

  const CHEAP_PREPEND: nat := 8
  const INITIAL_SIZE: nat := 1024
  const EXTRA: nat := 65536  // the spill area of readFd

  datatype Model = Model(size: nat, reader: nat, contents: seq<byte>) {
    function Writer(): nat { reader + |contents| }

    predicate Valid() { CHEAP_PREPEND <= reader && Writer() <= size }

    function Writable(): nat
      requires Valid()
    {
      size - Writer()
    }
  }

  function Fresh(initialSize: nat): Model {
    Model(initialSize + CHEAP_PREPEND, CHEAP_PREPEND, [])
  }

  function Min(a: nat, b: nat): nat { if a <= b then a else b }

  function Max(a: nat, b: nat): nat { if a <= b then b else a }

  function Retrieve(m: Model, len: nat): Model {
    if len < |m.contents| then m.(reader := m.reader + len, contents := m.contents[len..])
    else m.(reader := CHEAP_PREPEND, contents := [])
  }

  /** Room for `len` more bytes: grow if slack and prepend are short, else slide down. */
  function MakeSpace(m: Model, len: nat): Model
    requires m.Valid()
  {
    if m.Writable() + m.reader < CHEAP_PREPEND + len then m.(size := m.Writer() + len)
    else m.(reader := CHEAP_PREPEND)
  }

  function Ensure(m: Model, len: nat): Model
    requires m.Valid()
  {
    if m.Writable() < len then MakeSpace(m, len) else m
  }

  function Append(m: Model, data: seq<byte>): Model
    requires m.Valid()
  {
    var m' := Ensure(m, |data|);
    m'.(contents := m'.contents + data)
  }

  /** readFd once readv has delivered `data`, split between the vector and the spill area. */
  function Receive(m: Model, data: seq<byte>): Model
    requires m.Valid()
  {
    if |data| <= m.Writable() then m.(contents := m.contents + data)
    else
      var full := m.(contents := m.contents + data[..m.Writable()]);
      Append(full, data[m.Writable()..])
  }

  // -------------------------------------------------------------- single calls

  /** Why compaction may copy in ascending order: the data always moves strictly down. */
  lemma CompactionMovesDown(m: Model, len: nat)
    requires m.Valid() && m.Writable() < len
    requires !(m.Writable() + m.reader < CHEAP_PREPEND + len)
    ensures m.reader > CHEAP_PREPEND
  {
  }

  /** Both branches make room, keep the bytes, and never shrink the vector. */
  lemma MakeSpaceMakesRoom(m: Model, len: nat)
    requires m.Valid() && m.Writable() < len
    ensures
      var m' := MakeSpace(m, len);
      m'.Valid() && m'.Writable() >= len && m'.contents == m.contents && m'.size >= m.size
  {
  }

  lemma ReceiveKeepsBytes(m: Model, data: seq<byte>)
    requires m.Valid()
    ensures Receive(m, data).Valid() && Receive(m, data).contents == m.contents + data
  {
    if |data| > m.Writable() {
      var w := m.Writable();
      assert data[..w] + data[w..] == data;
      assert m.contents + data[..w] + data[w..] == m.contents + data;
    }
  }

  // ---------------------------------------------------------------- whole runs

  datatype Op =
    | OpAppend(data: seq<byte>)
    | OpReceive(data: seq<byte>)
    | OpRetrieve(len: nat)
    | OpRetrieveAll
    | OpEnsure(len: nat)

  function Step(m: Model, op: Op): Model
    requires m.Valid()
  {
    match op
    case OpAppend(data) => Append(m, data)
    case OpReceive(data) => Receive(m, data)
    case OpRetrieve(len) => Retrieve(m, len)
    case OpRetrieveAll => Retrieve(m, |m.contents|)
    case OpEnsure(len) => Ensure(m, len)
  }

  function PutIn(op: Op): seq<byte> {
    match op
    case OpAppend(data) => data
    case OpReceive(data) => data
    case _ => []
  }

  function TakenOut(m: Model, op: Op): seq<byte> {
    match op
    case OpRetrieve(len) => m.contents[..Min(len, |m.contents|)]
    case OpRetrieveAll => m.contents
    case _ => []
  }

  /** The most bytes that the call needs the buffer to hold at once. */
  function Demand(m: Model, op: Op): nat {
    |m.contents| + (if op.OpEnsure? then op.len else |PutIn(op)|)
  }

  lemma StepKeepsValid(m: Model, op: Op)
    requires m.Valid()
    ensures Step(m, op).Valid()
    ensures m.contents + PutIn(op) == TakenOut(m, op) + Step(m, op).contents
    ensures Step(m, op).size <= Max(m.size, 2 * Demand(m, op) + 7)
  {
    match op
    case OpReceive(data) => ReceiveKeepsBytes(m, data);
    case _ =>
  }

  /**
   The vector grows exactly if what it would have to hold, behind the prepend, does not fit;
   and what fits behind the bytes already there is put there without moving them.
   */
  lemma GrowsExactly(m: Model, op: Op)
    requires m.Valid()
    ensures
      var m' := Step(m, op);
      && (m'.size > m.size <==> Demand(m, op) + CHEAP_PREPEND > m.size)
      && (!op.OpRetrieve? && !op.OpRetrieveAll? && Demand(m, op) <= |m.contents| + m.Writable()
          ==> m'.size == m.size && m'.reader == m.reader)
  {
  }

  ghost function After(m: Model, ops: seq<Op>): (r: Model)
    requires m.Valid()
    ensures r.Valid()
    decreases |ops|
  {
    if ops == [] then m
    else
      StepKeepsValid(m, ops[0]);
      After(Step(m, ops[0]), ops[1..])
  }

  ghost function AllIn(ops: seq<Op>): seq<byte> {
    if ops == [] then [] else PutIn(ops[0]) + AllIn(ops[1..])
  }

  ghost function AllOut(m: Model, ops: seq<Op>): seq<byte>
    requires m.Valid()
    decreases |ops|
  {
    if ops == [] then []
    else
      StepKeepsValid(m, ops[0]);
      TakenOut(m, ops[0]) + AllOut(Step(m, ops[0]), ops[1..])
  }

  ghost function PeakDemand(m: Model, ops: seq<Op>): nat
    requires m.Valid()
    decreases |ops|
  {
    if ops == [] then 0
    else
      StepKeepsValid(m, ops[0]);
      Max(Demand(m, ops[0]), PeakDemand(Step(m, ops[0]), ops[1..]))
  }

  lemma Telescope(out: seq<byte>, outs: seq<byte>, left: seq<byte>,
                  mid: seq<byte>, start: seq<byte>, put: seq<byte>, puts: seq<byte>)
    requires start + put == out + mid && outs + left == mid + puts
    ensures (out + outs) + left == start + (put + puts)
  {
    assert (out + outs) + left == out + (outs + left);
    assert out + (mid + puts) == (out + mid) + puts;
    assert (start + put) + puts == start + (put + puts);
  }

  /**
   Byte FIFO.  Over any sequence of calls the bytes taken out, followed by those still
   readable, are the bytes put in, in order; and the cursors stay in bounds.
   */
  lemma {:induction false} BufferIsFifo(m: Model, ops: seq<Op>)
    requires m.Valid()
    ensures After(m, ops).Valid()
    ensures AllOut(m, ops) + After(m, ops).contents == m.contents + AllIn(ops)
    decreases |ops|
  {
    if ops != [] {
      var op, rest := ops[0], ops[1..];
      StepKeepsValid(m, op);
      var m' := Step(m, op);
      BufferIsFifo(m', rest);
      Telescope(TakenOut(m, op), AllOut(m', rest), After(m', rest).contents,
                m'.contents, m.contents, PutIn(op), AllIn(rest));
    }
  }

  /** Space bound.  The vector is never longer than it started or than twice the peak plus 7. */
  lemma {:induction false} SpaceBound(m: Model, ops: seq<Op>)
    requires m.Valid()
    ensures m.size <= After(m, ops).size <= Max(m.size, 2 * PeakDemand(m, ops) + 7)
    decreases |ops|
  {
    if ops != [] {
      StepKeepsValid(m, ops[0]);
      SpaceBound(Step(m, ops[0]), ops[1..]);
    }
  }

  // ------------------------------------------------------------ readv as called

  /** The third argument of readv (Netmux/Buffer.cc:16): a comparison, so never 2. */
  function IovCount(writable: nat): nat {
    if writable < EXTRA then 1 else 0
  }

  function Capacity(writable: nat, iovcnt: nat): nat {
    if iovcnt == 0 then 0 else if iovcnt == 1 then writable else writable + EXTRA
  }

  /** What readv delivers of the bytes waiting in the socket; `chunk` is the kernel's choice. */
  function Readv(waiting: seq<byte>, capacity: nat, chunk: nat): seq<byte> {
    waiting[..Min(|waiting|, Min(capacity, chunk))]
  }

  /**
   readFd returns 0, which TcpConnection::handleRead takes for the peer's close, although
   bytes are waiting, exactly when the vector is full or has at least 64 KiB of slack.
   */
  lemma FalseEndOfFileExactly(m: Model, waiting: seq<byte>, chunk: nat)
    requires m.Valid() && waiting != [] && chunk > 0
    ensures |Readv(waiting, Capacity(m.Writable(), IovCount(m.Writable())), chunk)| == 0
            <==> m.Writable() == 0 || m.Writable() >= EXTRA
  {
  }

  /** Such a buffer is one read away: 1024 bytes that no callback has taken yet. */
  lemma FalseEndOfFileIsReachable(data: seq<byte>)
    requires |data| == INITIAL_SIZE
    ensures
      var m := After(Fresh(INITIAL_SIZE), [OpReceive(data)]);
      m.contents == data && m.Writable() == 0
      && Readv(data, Capacity(m.Writable(), IovCount(m.Writable())), 1) == []
  {
    var m := Fresh(INITIAL_SIZE);
    StepKeepsValid(m, OpReceive(data));
    assert After(Step(m, OpReceive(data)), []) == Step(m, OpReceive(data));
    assert [OpReceive(data)][1..] == [];
  }

  // --------------------------------------------------- how much a read can deliver

  lemma FreshTakes(n: nat)
    ensures Fresh(n).Valid() && Fresh(n).contents == [] && Fresh(n).Writable() == n
  {
  }

  predicate TakesAll(m: Model, op: Op) {
    op.OpRetrieveAll? || (op.OpRetrieve? && op.len >= |m.contents|)
  }

  /**
   Space comes back.  A call that takes everything readable leaves all of the vector but the
   prepend writable; one that takes less leaves the writable bytes as they were.
   */
  lemma RetrieveFrees(m: Model, op: Op)
    requires m.Valid() && (op.OpRetrieve? || op.OpRetrieveAll?)
    ensures
      var m' := Step(m, op);
      && m'.Valid() && m'.size == m.size
      && (TakesAll(m, op) ==> m'.contents == [] && m'.Writable() == m.size - CHEAP_PREPEND)
      && (!TakesAll(m, op) ==> m'.Writable() == m.Writable() && |m'.contents| == |m.contents| - op.len)
  {
  }

  /** What readFd receives when `waiting` is in the socket and the kernel chooses `chunk`. */
  function ReadOnce(m: Model, waiting: seq<byte>, chunk: nat): seq<byte>
    requires m.Valid()
  {
    Readv(waiting, Capacity(m.Writable(), IovCount(m.Writable())), chunk)
  }

  /**
   After any sequence of calls, a buffer that has just been drained reads a false end of
   file exactly if its vector has no room at all or 64 KiB of it.
   */
  lemma DrainedReadsExactly(m: Model, ops: seq<Op>, drain: Op, waiting: seq<byte>, chunk: nat)
    requires m.Valid() && TakesAll(After(m, ops), drain) && waiting != [] && chunk > 0
    ensures
      var d := Step(After(m, ops), drain);
      && d.Valid()
      && (ReadOnce(d, waiting, chunk) != [] <==> 0 < d.size - CHEAP_PREPEND < EXTRA)
  {
    RetrieveFrees(After(m, ops), drain);
    FalseEndOfFileExactly(Step(After(m, ops), drain), waiting, chunk);
  }

  /** The first read of a new buffer delivers all that is waiting, if it fits and the kernel gives it. */
  lemma FirstReadDeliversAll(n: nat, waiting: seq<byte>, chunk: nat)
    requires 0 < |waiting| <= n < EXTRA && chunk >= |waiting|
    ensures Fresh(n).Valid() && ReadOnce(Fresh(n), waiting, chunk) == waiting
    ensures Receive(Fresh(n), waiting).Valid() && Receive(Fresh(n), waiting).contents == waiting
  {
    assert [] + waiting == waiting;
  }

  /** One round of a handler that reads what there is and takes all of it. */
  datatype Round = Round(waiting: seq<byte>, chunk: nat)

  function Drain(m: Model, round: Round): Model
    requires m.Valid()
  {
    var m' := Receive(m, ReadOnce(m, round.waiting, round.chunk));
    Retrieve(m', |m'.contents|)
  }

  /** A round leaves the buffer as one made new with the same vector: it has not grown. */
  lemma DrainRenews(m: Model, round: Round)
    requires m.Valid()
    ensures Drain(m, round).Valid() && Drain(m, round) == Fresh(m.size - CHEAP_PREPEND)
  {
    var data := ReadOnce(m, round.waiting, round.chunk);
    ReceiveKeepsBytes(m, data);
    assert |data| <= m.Writable();
  }

  ghost function Rounds(m: Model, rounds: seq<Round>): Model
    requires m.Valid()
    decreases |rounds|
  {
    if rounds == [] then m
    else
      DrainRenews(m, rounds[0]);
      Rounds(Drain(m, rounds[0]), rounds[1..])
  }

  lemma {:induction false} RoundsRenew(m: Model, rounds: seq<Round>)
    requires m.Valid() && (rounds != [] || m == Fresh(m.size - CHEAP_PREPEND))
    ensures Rounds(m, rounds) == Fresh(m.size - CHEAP_PREPEND)
    decreases |rounds|
  {
    if rounds != [] {
      DrainRenews(m, rounds[0]);
      RoundsRenew(Drain(m, rounds[0]), rounds[1..]);
    }
  }

  /**
   A handler that takes everything on each call, as an echo server does, never loses its
   peer to a false end of file: after any number of rounds, whatever was waiting and however
   the kernel split it, the next read finds bytes if there are any.
   */
  lemma DrainingHandlerIsSafe(m: Model, rounds: seq<Round>, waiting: seq<byte>, chunk: nat)
    requires m.Valid() && 0 < m.size - CHEAP_PREPEND < EXTRA && (rounds != [] || m == Fresh(m.size - CHEAP_PREPEND))
    requires waiting != [] && chunk > 0
    ensures
      var d := Rounds(m, rounds);
      && d.Valid()
      && ReadOnce(d, waiting, chunk) == waiting[..Min(|waiting|, Min(m.size - CHEAP_PREPEND, chunk))] != []
  {
    RoundsRenew(m, rounds);
    FalseEndOfFileExactly(Rounds(m, rounds), waiting, chunk);
  }
}
