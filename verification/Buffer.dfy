/**
 The growable read buffer (resp3/buffer.hpp): a byte array with a read and a write position. It
 refines a byte FIFO, and the bytes recorded views point at stay put between `compact` and `reset`.
 */
module Buffer {
  import opened Bytes

  const SIZE_MAX: nat := 0xFFFF_FFFF_FFFF_FFFF

  // ----- the abstract buffer -----

  /** Everything written since the last compaction, and how much of it has been read. */
  datatype Log = Log(written: bytes, read: nat)

  predicate LogOk(l: Log) {
    l.read <= |l.written|
  }

  function Unread(l: Log): bytes
    requires LogOk(l)
  {
    l.written[l.read..]
  }

  datatype Op = Commit(chunk: bytes) | Consume(n: nat) | Compact

  predicate Enabled(l: Log, op: Op) {
    LogOk(l) && (op.Consume? ==> l.read + op.n <= |l.written|)
  }

  function Apply(l: Log, op: Op): (r: Log)
    requires Enabled(l, op)
    ensures LogOk(r)
  {
    match op
    case Commit(chunk) => Log(l.written + chunk, l.read)
    case Consume(n) => Log(l.written, l.read + n)
    case Compact => Log(Unread(l), 0)
  }

  predicate RunsFrom(l: Log, ops: seq<Op>)
    decreases |ops|
  {
    LogOk(l) && (ops == [] || (Enabled(l, ops[0]) && RunsFrom(Apply(l, ops[0]), ops[1..])))
  }

  function RunOps(l: Log, ops: seq<Op>): (r: Log)
    requires RunsFrom(l, ops)
    ensures LogOk(r)
    decreases |ops|
  {
    if ops == [] then l else RunOps(Apply(l, ops[0]), ops[1..])
  }

  function Committed(ops: seq<Op>): bytes {
    if ops == [] then [] else (if ops[0].Commit? then ops[0].chunk else []) + Committed(ops[1..])
  }

  function Consumed(ops: seq<Op>): nat {
    if ops == [] then 0 else (if ops[0].Consume? then ops[0].n else 0) + Consumed(ops[1..])
  }

  /** A byte FIFO: what is readable is what was committed, in order, less what was consumed. */
  lemma {:induction false} IsFifo(l: Log, ops: seq<Op>)
    requires RunsFrom(l, ops)
    ensures Consumed(ops) <= |Unread(l) + Committed(ops)|
    ensures Unread(RunOps(l, ops)) == (Unread(l) + Committed(ops))[Consumed(ops)..]
    decreases |ops|
  {
    if ops != [] {
      var op, rest := ops[0], ops[1..];
      IsFifo(Apply(l, op), rest);
      FifoStep(l, op, Committed(rest));
      hide Apply, Unread;
      assert (Unread(l) + Committed(ops))[Consumed([op])..][Consumed(rest)..] == (Unread(l) + Committed(ops))[Consumed(ops)..];
    }
  }

  lemma FifoStep(l: Log, op: Op, later: bytes)
    requires Enabled(l, op)
    ensures Consumed([op]) <= |Unread(l)|
    ensures Consumed([op]) == if op.Consume? then op.n else 0
    ensures Unread(Apply(l, op)) + later == (Unread(l) + ((if op.Commit? then op.chunk else []) + later))[Consumed([op])..]
  {
    assert Consumed([op]) == if op.Consume? then op.n else 0;
    hide Consumed;
    if op.Commit? {
      assert (l.written + op.chunk)[l.read..] == l.written[l.read..] + op.chunk;
    }
  }

  /** A view `(offset, length)` into the written bytes spells the same text until the next compaction. */
  lemma {:induction false} ViewsStay(l: Log, ops: seq<Op>, offset: nat, length: nat)
    requires RunsFrom(l, ops) && Compact !in ops && offset + length <= |l.written|
    ensures offset + length <= |RunOps(l, ops).written|
    ensures RunOps(l, ops).written[offset..offset + length] == l.written[offset..offset + length]
    decreases |ops|
  {
    if ops != [] {
      assert ops[0] in ops && forall op :: op in ops[1..] ==> op in ops;
      ViewsStay(Apply(l, ops[0]), ops[1..], offset, length);
      assert Apply(l, ops[0]).written[offset..offset + length] == l.written[offset..offset + length];
    }
  }

  // ----- the buffer itself -----

  class Buffer {
    var data: array<byte>
    var readPos: nat
    var writePos: nat

    ghost predicate Valid()
      reads this
    {
      readPos <= writePos <= data.Length && data.Length > 0
    }

    function Contents(): (l: Log)
      reads this, data
      requires Valid()
      ensures LogOk(l)
    {
      Log(data[..writePos], readPos)
    }

    constructor (capacity: nat)
      ensures Valid() && fresh(data) && Contents() == Log([], 0)
    {
      data := new byte[if capacity == 0 then 1 else capacity](_ => 0);
      readPos, writePos := 0, 0;
    }

    /** The size to grow to: doubling, until doubling would overflow. */
    static method Grow(size: nat, writePos: nat, n: nat) returns (newSize: nat)
      requires 0 < size && writePos <= size && size - writePos < n
      ensures size < newSize && n <= newSize - writePos
      ensures newSize == writePos + n || newSize < 2 * (writePos + n)
    {
      newSize := size;
      while newSize - writePos < n
        invariant size <= newSize && (newSize == size || newSize < 2 * (writePos + n))
        decreases writePos + n - newSize
      {
        if newSize > SIZE_MAX / 2 {
          newSize := writePos + n;
          break;
        }
        newSize := newSize * 2;
      }
    }

    /** Makes room for at least `n` more bytes; nothing that was written changes. */
    method Prepare(n: nat) returns (space: nat)
      requires Valid()
      modifies this`data
      ensures Valid() && Contents() == old(Contents())
      ensures space == data.Length - writePos && n <= space
      ensures data == old(data) || fresh(data)
    {
      if data.Length - writePos < n {
        var newSize := Grow(data.Length, writePos, n);
        var grown := new byte[newSize](_ => 0);
        for i := 0 to data.Length
          invariant data == old(data) && grown.Length == newSize && fresh(grown)
          invariant grown[..i] == data[..i]
        {
          grown[i] := data[i];
        }
        assert grown[..writePos] == grown[..data.Length][..writePos] == data[..writePos];
        data := grown;
      }
      space := data.Length - writePos;
    }

    /** The reader's side of a read: bytes placed in the prepared space. */
    method Write(chunk: bytes)
      requires Valid() && |chunk| <= data.Length - writePos
      modifies data
      ensures Valid() && Contents() == old(Contents())
      ensures data[writePos..writePos + |chunk|] == chunk
    {
      for i := 0 to |chunk|
        invariant data[..writePos] == old(data[..writePos])
        invariant data[writePos..writePos + i] == chunk[..i]
      {
        data[writePos + i] := chunk[i];
      }
    }

    /** The first `n` bytes of the prepared space become readable. */
    method Commit(n: nat)
      requires Valid() && n <= data.Length - writePos
      modifies this`writePos
      ensures Valid() && Contents() == Apply(old(Contents()), Op.Commit(data[old(writePos)..old(writePos) + n]))
    {
      writePos := writePos + n;
    }

    method Consume(n: nat)
      requires Valid() && n <= writePos - readPos
      modifies this`readPos
      ensures Valid() && Contents() == Apply(old(Contents()), Op.Consume(n))
    {
      readPos := readPos + n;
    }

    method Reset()
      requires Valid()
      modifies this`readPos, this`writePos
      ensures Valid() && Contents() == Log([], 0)
    {
      readPos, writePos := 0, 0;
    }

    /** Moves the unread bytes to the front, in place. */
    method Compact()
      requires Valid()
      modifies this`readPos, this`writePos, data
      ensures Valid() && Contents() == Apply(old(Contents()), Op.Compact)
    {
      if readPos == 0 {
        return;
      }
      var remaining := writePos - readPos;
      for i := 0 to remaining
        invariant Valid() && readPos == old(readPos) && writePos == old(writePos)
        invariant forall k :: 0 <= k < i ==> data[k] == old(data[readPos + k])
        invariant forall k :: i <= k < data.Length ==> data[k] == old(data[k])
      {
        data[i] := data[readPos + i];
      }
      readPos, writePos := 0, remaining;
      assert data[..remaining] == old(data[..writePos][readPos..]);
    }
  }
}
