/**
 `Buffer` as written: a byte vector with two cursors, updated in place.  Every method's
 effect is the operation of `BufferModel` on the object's model, so the laws proved there
 over runs are laws of the object.
 */
module Buffers {
  import opened BufferModel

  /** What readv gave back: an errno, or the bytes it scattered. */
  datatype ReadResult = Failed(errno: int) | Got(data: seq<byte>)

  lemma SliceOfPrefix(a: seq<byte>, b: seq<byte>, from: nat, to: nat)
    requires a <= b && from <= to <= |a|
    ensures a[from..to] == b[from..to]
  {
    forall k | 0 <= k < to - from ensures a[from..to][k] == b[from..to][k] {
      assert a[from + k] == b[from + k];
    }
  }

  class Buffer {
    var buffer: array<byte>
    var readerIndex: nat
    var writerIndex: nat

    ghost predicate Valid()
      reads this
    {
      CHEAP_PREPEND <= readerIndex <= writerIndex <= buffer.Length
    }

    ghost function View(): Model
      reads this, buffer
      requires Valid()
      ensures View().Valid()
    {
      Model(buffer.Length, readerIndex, buffer[readerIndex..writerIndex])
    }

    constructor (initialSize: nat)
      ensures Valid() && fresh(buffer)
      ensures View() == Fresh(initialSize)
      ensures ReadableBytes() == 0 && WritableBytes() == initialSize
    {
      buffer := new byte[initialSize + CHEAP_PREPEND](i => 0);
      readerIndex, writerIndex := CHEAP_PREPEND, CHEAP_PREPEND;
    }

    function ReadableBytes(): nat
      reads this
      requires Valid()
    {
      writerIndex - readerIndex
    }

    function WritableBytes(): nat
      reads this
      requires Valid()
    {
      buffer.Length - writerIndex
    }

    function PrependableBytes(): nat
      reads this
    {
      readerIndex
    }

    method RetrieveAll()
      requires Valid()
      modifies this
      ensures Valid() && buffer == old(buffer)
      ensures View() == BufferModel.Retrieve(old(View()), |old(View()).contents|)
      ensures ReadableBytes() == 0 && WritableBytes() == buffer.Length - CHEAP_PREPEND
    {
      readerIndex, writerIndex := CHEAP_PREPEND, CHEAP_PREPEND;
    }

    method Retrieve(len: nat)
      requires Valid()
      modifies this
      ensures Valid() && buffer == old(buffer)
      ensures View() == BufferModel.Retrieve(old(View()), len)
      ensures WritableBytes() == if len < old(ReadableBytes()) then old(WritableBytes())
                                 else buffer.Length - CHEAP_PREPEND
    {
      if len < ReadableBytes() {
        readerIndex := readerIndex + len;
      } else {
        RetrieveAll();
      }
    }

    /**
     The string always has `len` bytes, so it is the next bytes of the queue exactly when
     that many are readable; beyond that it repeats stale bytes of the vector.
     */
    method RetrieveAsString(len: nat) returns (s: seq<byte>)
      requires Valid() && readerIndex + len <= buffer.Length
      modifies this
      ensures Valid() && buffer == old(buffer)
      ensures s == old(buffer[readerIndex..readerIndex + len])
      ensures s == TakenOut(old(View()), OpRetrieve(len)) <==> len <= old(ReadableBytes())
      ensures View() == BufferModel.Retrieve(old(View()), len)
    {
      s := buffer[readerIndex..readerIndex + len];
      assert len <= ReadableBytes() ==> s == View().contents[..len];
      Retrieve(len);
    }

    method RetrieveAllAsString() returns (s: seq<byte>)
      requires Valid()
      modifies this
      ensures Valid() && buffer == old(buffer)
      ensures s == old(View()).contents
      ensures View() == BufferModel.Retrieve(old(View()), |old(View()).contents|)
      ensures ReadableBytes() == 0 && WritableBytes() == buffer.Length - CHEAP_PREPEND
    {
      s := RetrieveAsString(ReadableBytes());
    }

    /** vector::resize to a longer length: the old bytes stay, the new ones are zero. */
    method Resize(size: nat)
      requires Valid() && size >= buffer.Length
      modifies this
      ensures fresh(buffer) && buffer.Length == size
      ensures old(buffer[..]) <= buffer[..]
      ensures readerIndex == old(readerIndex) && writerIndex == old(writerIndex)
    {
      var bigger := new byte[size](i => 0);
      forall i | 0 <= i < buffer.Length {
        bigger[i] := buffer[i];
      }
      buffer := bigger;
    }

    /** std::copy of the readable bytes down to the prepend, in ascending order. */
    method CopyDown()
      requires Valid() && readerIndex > CHEAP_PREPEND
      modifies buffer
      ensures buffer[CHEAP_PREPEND..CHEAP_PREPEND + (writerIndex - readerIndex)]
              == old(buffer[readerIndex..writerIndex])
    {
      ghost var readable := buffer[readerIndex..writerIndex];
      var i := 0;
      while i < writerIndex - readerIndex
        invariant 0 <= i <= |readable|
        invariant forall k :: 0 <= k < i ==> buffer[CHEAP_PREPEND + k] == readable[k]
        invariant forall k :: i <= k < |readable| ==> buffer[readerIndex + k] == readable[k]
      {
        buffer[CHEAP_PREPEND + i] := buffer[readerIndex + i];
        i := i + 1;
      }
    }

    method MakeSpace(len: nat)
      requires Valid() && WritableBytes() < len
      modifies this, buffer
      ensures Valid() && (buffer == old(buffer) || fresh(buffer))
      ensures View() == BufferModel.MakeSpace(old(View()), len) && View().contents == old(View()).contents
      ensures WritableBytes() >= len
    {
      if WritableBytes() + PrependableBytes() < CHEAP_PREPEND + len {
        ghost var was := buffer[..];
        Resize(writerIndex + len);
        SliceOfPrefix(was, buffer[..], readerIndex, writerIndex);
      } else {
        var readable := ReadableBytes();
        CopyDown();
        readerIndex := CHEAP_PREPEND;
        writerIndex := readerIndex + readable;
      }
    }

    method EnsureWriteableBytes(len: nat)
      requires Valid()
      modifies this, buffer
      ensures Valid() && (buffer == old(buffer) || fresh(buffer))
      ensures View() == Ensure(old(View()), len) && View().contents == old(View()).contents
      ensures WritableBytes() >= len
    {
      if WritableBytes() < len {
        MakeSpace(len);
      }
    }

    /** Bytes written into the slack, before the cursor moves past them. */
    method Fill(data: seq<byte>)
      requires Valid() && |data| <= WritableBytes()
      modifies buffer
      ensures View() == old(View())
      ensures buffer[readerIndex..writerIndex + |data|] == old(View()).contents + data
    {
      ghost var contents := View().contents;
      forall i | 0 <= i < |data| {
        buffer[writerIndex + i] := data[i];
      }
      assert buffer[readerIndex..writerIndex] == contents;
      assert buffer[writerIndex..writerIndex + |data|] == data;
      assert buffer[readerIndex..writerIndex + |data|]
             == buffer[readerIndex..writerIndex] + buffer[writerIndex..writerIndex + |data|];
    }

    method Append(data: seq<byte>)
      requires Valid()
      modifies this, buffer
      ensures Valid() && (buffer == old(buffer) || fresh(buffer))
      ensures View() == BufferModel.Append(old(View()), data)
      ensures View().contents == old(View()).contents + data
    {
      EnsureWriteableBytes(|data|);
      Fill(data);
      writerIndex := writerIndex + |data|;
    }

    /** The vector filled to its end by `head`, and the spilled `tail` appended. */
    method Spill(head: seq<byte>, tail: seq<byte>)
      requires Valid() && |head| == WritableBytes()
      modifies this, buffer
      ensures Valid() && (buffer == old(buffer) || fresh(buffer))
      ensures View() == BufferModel.Append(old(View()).(contents := old(View()).contents + head), tail)
    {
      Fill(head);
      writerIndex := buffer.Length;
      Append(tail);
    }

    /** readFd for every result readv could have: bytes beyond the slack came through `extrabuf`. */
    method ReadFd(result: ReadResult) returns (n: int, saveErrno: int)
      requires Valid()
      requires result.Got? ==> |result.data| <= WritableBytes() + EXTRA
      modifies this, buffer
      ensures Valid() && (buffer == old(buffer) || fresh(buffer))
      ensures result.Failed? ==> n == -1 && saveErrno == result.errno && View() == old(View())
      ensures result.Got? ==> n == |result.data| && View() == Receive(old(View()), result.data)
      ensures result.Got? ==> View().contents == old(View()).contents + result.data
    {
      if result.Got? {
        ReceiveKeepsBytes(View(), result.data);
      }
      saveErrno := 0;
      match result
      case Failed(errno) =>
        n, saveErrno := -1, errno;
      case Got(data) =>
        n := |data|;
        var writable := WritableBytes();
        if n <= writable {
          Fill(data);
          writerIndex := writerIndex + n;
        } else {
          Spill(data[..writable], data[writable..]);
        }
    }
  }
}
