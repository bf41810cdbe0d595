/** The growable ring buffer under the pipeline (detail/ring_queue.hpp), refining a FIFO sequence. */
module RingQueue {

  /** Where the `i`-th element of a queue starting at `head` lives. */
  function Slot(head: nat, i: nat, cap: nat): (k: nat)
    requires head < cap && i <= cap
    ensures k < cap && k == if head + i < cap then head + i else head + i - cap
  {
    WrapOnce(head + i, cap);
    (head + i) % cap
  }

  lemma WrapOnce(x: nat, cap: nat)
    requires 0 < cap && x < 2 * cap
    ensures x % cap == if x < cap then x else x - cap
  {
    var q, r := x / cap, x % cap;
    assert x == q * cap + r;
    if q >= 2 {
      TimesNonNegative(q - 2, cap);
    } else if q <= -1 {
      TimesNonNegative(-1 - q, cap);
    }
  }

  lemma TimesNonNegative(a: int, b: int)
    requires a >= 0 && b >= 0
    ensures a * b >= 0
  {
  }

  /** The elements of a wrapped array in queue order. */
  ghost function Unwrapped<T>(raw: seq<T>, head: nat, size: nat): (s: seq<T>)
    requires size <= |raw| && (|raw| == 0 || head < |raw|)
    ensures |s| == size && forall i :: 0 <= i < size ==> s[i] == raw[Slot(head, i, |raw|)]
  {
    seq(size, i requires 0 <= i < size => raw[Slot(head, i, |raw|)])
  }

  /** Capacity after growing: doubled from at least 8 until it holds `need` elements. */
  method GrownCapacity(cap: nat, need: nat) returns (newCap: nat)
    requires cap < need
    ensures need <= newCap && 8 <= newCap && cap < newCap
    ensures newCap == 8 || newCap < 2 * need
  {
    newCap := if 8 < cap then cap else 8;
    while newCap < need
      invariant 8 <= newCap && cap <= newCap && (newCap == 8 || newCap == cap || newCap < 2 * need)
      decreases need - newCap
    {
      newCap := newCap * 2;
    }
  }

  class RingQueue<T(0)> {
    var data: array<T>
    var head: nat
    var size: nat

    ghost predicate Valid()
      reads this
    {
      size <= data.Length && (data.Length == 0 || head < data.Length) && (size == 0 ==> head == 0)
    }

    /** The elements from front to back. */
    ghost function Contents(): (s: seq<T>)
      reads this, data
      requires Valid()
      ensures |s| == size
    {
      Unwrapped(data[..], head, size)
    }

    constructor ()
      ensures Valid() && fresh(data) && Contents() == []
    {
      data := new T[0];
      head, size := 0, 0;
    }

    method Front() returns (x: T)
      requires Valid() && size > 0
      ensures x == Contents()[0]
    {
      x := data[head];
    }

    /** `front()` is a reference: its owner updates the element in place. */
    method SetFront(x: T)
      requires Valid() && size > 0
      modifies data
      ensures Valid() && Contents() == old(Contents())[0 := x]
    {
      data[head] := x;
    }

    method PopFront()
      requires Valid() && size > 0
      modifies this`head, this`size
      ensures Valid() && Contents() == old(Contents())[1..]
    {
      head := Slot(head, 1, data.Length);
      size := size - 1;
      if size == 0 {
        head := 0;
      }
    }

    /** Growing copies the elements to the start of a larger array, in order. */
    method EnsureCapacity(need: nat)
      requires Valid()
      modifies this`data, this`head
      ensures Valid() && need <= data.Length && Contents() == old(Contents())
      ensures data == old(data) || fresh(data)
    {
      if need <= data.Length {
        return;
      }
      var newCap := GrownCapacity(data.Length, need);
      var grown := new T[newCap];
      for i := 0 to size
        invariant Valid() && data == old(data) && head == old(head) && fresh(grown)
        invariant forall k :: 0 <= k < i ==> grown[k] == Contents()[k]
      {
        grown[i] := data[Slot(head, i, data.Length)];
      }
      data, head := grown, 0;
    }

    method EmplaceBack(x: T)
      requires Valid()
      modifies this, data
      ensures Valid() && Contents() == old(Contents()) + [x]
      ensures data == old(data) || fresh(data)
    {
      EnsureCapacity(size + 1);
      data[Slot(head, size, data.Length)] := x;
      size := size + 1;
    }

    method Clear()
      requires Valid()
      modifies this`head, this`size
      ensures Valid() && Contents() == [] && head == 0
    {
      while size > 0
        invariant Valid()
        decreases size
      {
        PopFront();
      }
      head := 0;
    }
  }
}
