/**
 * A fixed-size ring of slots (src/ringBuffer.hh) addressed by two
 * ever-growing 64-bit counters: `head` counts pushes and `tail` pops, and
 * counter value `c` lives in slot `c % bufferSize`. `Back` hands out the
 * slot to fill next, `Push` commits it, `Front` hands out the oldest filled
 * slot and `Pop` releases it. No operation checks anything: the caller is
 * expected to push only after a non-null `Back` and to pop only after a
 * non-null `Front`, which keeps `head - tail` within `bufferSize`.
 *
 * The counters are `std::atomic<uint64_t>` and `bufferSize` a `size_t`;
 * the model uses unsigned 64-bit arithmetic for both and runs every
 * operation sequentially.
 */
module RingBuffers {
  import opened Bytes
  import opened Wrappers

  /** Unsigned 64-bit `++c`. */
  function Inc64(c: uint64): (r: uint64)
    ensures c < UINT64_MODULUS - 1 ==> r == c + 1
    ensures c == UINT64_MODULUS - 1 ==> r == 0
  {
    (c + 1) % UINT64_MODULUS
  }

  /** Unsigned 64-bit subtraction `a - b`. */
  function Sub64(a: int, b: int): (r: uint64)
  {
    (a - b) % UINT64_MODULUS
  }

  /** Unsigned 64-bit addition `a + b`. */
  function Add64(a: uint64, b: uint64): (r: uint64)
  {
    (a + b) % UINT64_MODULUS
  }

  /**
   * The private `Available(h, t)`: equal counters leave room; a tail ahead of
   * the head leaves room when it is more than `bufferSize` ahead; otherwise
   * there is room unless `t + bufferSize - h` is 0 in 64-bit arithmetic.
   */
  function AvailableAt(h: uint64, t: uint64, bufferSize: uint64): (b: bool)
    ensures t <= h ==> (!b <==> h != t && h == Add64(t, bufferSize))
  {
    if h == t then true
    else if t > h then t - h > bufferSize
    else Sub64(Add64(t, bufferSize), h) > 0
  }

  /**
   * `Size` in 64-bit arithmetic: `bufferSize - (tail + bufferSize - head)`
   * when the tail is behind, `bufferSize - (tail - head)` when it is ahead,
   * and 0 when they are equal.
   */
  function SizeAt(h: uint64, t: uint64, bufferSize: uint64): (n: uint64)
    ensures t <= h ==> n == h - t
    ensures t > h ==> n == Sub64(bufferSize, t - h)
  {
    if t < h then Sub64(bufferSize, Sub64(Add64(t, bufferSize), h))
    else if t > h then Sub64(bufferSize, t - h)
    else 0
  }

  /** The counters of a buffer used as intended: the head at most `bufferSize` ahead of the tail. */
  predicate InBounds(h: uint64, t: uint64, bufferSize: uint64)
  {
    t <= h <= t + bufferSize
  }

  /**
   * When the head has not wrapped around and is at most `bufferSize` ahead,
   * `Available` says exactly whether the head is less than `bufferSize`
   * ahead: it is false only for a full buffer, `h == t + bufferSize`. (With
   * no slots at all, equal counters count as room.)
   */
  lemma AvailableIffRoom(h: uint64, t: uint64, bufferSize: uint64)
    requires InBounds(h, t, bufferSize) && bufferSize > 0
    ensures AvailableAt(h, t, bufferSize) <==> h - t < bufferSize
  {
    if h != t {
      var s := Add64(t, bufferSize);
      if t + bufferSize < UINT64_MODULUS {
        assert s == t + bufferSize;
      } else {
        assert s == t + bufferSize - UINT64_MODULUS;
        assert s - h == (t + bufferSize - h) - UINT64_MODULUS;
      }
      assert Sub64(s, h) == t + bufferSize - h;
    }
  }

  /** The slots of the live counters `t .. h - 1` and of the head are pairwise distinct: `Back` never hands out a live slot. */
  lemma BackSlotIsFree(h: int, t: int, bufferSize: int)
    requires 0 <= t <= h < t + bufferSize
    ensures forall c | t <= c < h :: c % bufferSize != h % bufferSize
  {
    forall c | t <= c < h
      ensures c % bufferSize != h % bufferSize
    {
      SlotsDistinct(c, h, bufferSize);
    }
  }

  /** Two counters less than `bufferSize` apart use different slots. */
  lemma SlotsDistinct(a: int, b: int, bufferSize: int)
    requires 0 <= a < b < a + bufferSize
    ensures a % bufferSize != b % bufferSize
  {
    var qa, qb := a / bufferSize, b / bufferSize;
    if a % bufferSize == b % bufferSize {
      var k := qb - qa;
      MulDifference(qb, qa, bufferSize);
      assert b - a == k * bufferSize;
      if k > 0 {
        MulSign(k - 1, bufferSize);
        MulDifference(k, 1, bufferSize);
      }
    }
  }

  lemma MulDifference(x: int, y: int, z: int)
    ensures x * z - y * z == (x - y) * z
  {
  }

  lemma MulSign(x: nat, y: nat)
    ensures x * y >= 0
  {
  }

  /** A push after a non-null `Back` keeps the head within bounds and adds one to the size. */
  lemma PushKeepsBounds(h: uint64, t: uint64, bufferSize: uint64)
    requires InBounds(h, t, bufferSize) && AvailableAt(h, t, bufferSize) && bufferSize > 0
    ensures h < UINT64_MODULUS - 1 ==>
      InBounds(Inc64(h), t, bufferSize) && SizeAt(Inc64(h), t, bufferSize) == SizeAt(h, t, bufferSize) + 1
  {
    AvailableIffRoom(h, t, bufferSize);
  }

  /** A pop after a non-null `Front` keeps the counters within bounds and takes one from the size. */
  lemma PopKeepsBounds(h: uint64, t: uint64, bufferSize: uint64)
    requires InBounds(h, t, bufferSize) && t < h
    ensures InBounds(h, Inc64(t), bufferSize) && SizeAt(h, Inc64(t), bufferSize) == SizeAt(h, t, bufferSize) - 1
  {
  }

  class RingBuffer<T> {
    const ring: array<T>
    const bufferSize: uint64
    var head: uint64
    var tail: uint64

    /** `RingBuffer(bufferSize)`: `bufferSize` slots holding `init`, both counters at zero. */
    constructor (size: uint64, init: T)
      ensures bufferSize == size && ring.Length == size && fresh(ring)
      ensures forall i | 0 <= i < ring.Length :: ring[i] == init
      ensures head == 0 && tail == 0
      ensures Size() == 0 && Front().None?
    {
      bufferSize := size;
      ring := new T[size](_ => init);
      head := 0;
      tail := 0;
    }

    /**
     * `Front`: the slot of the oldest pushed value, `tail % bufferSize`,
     * when the tail is behind the head; null otherwise.
     */
    function Front(): (slot: Option<nat>)
      reads this
      requires tail < head ==> bufferSize > 0
      ensures slot.Some? <==> tail < head
      ensures slot.Some? ==> slot.value == tail % bufferSize && slot.value < bufferSize
    {
      if tail < head then Some(tail % bufferSize) else None
    }

    /** `Back`: the slot to fill next, `head % bufferSize`, when `Available(head, tail)`; null otherwise. */
    function Back(): (slot: Option<nat>)
      reads this
      requires AvailableAt(head, tail, bufferSize) ==> bufferSize > 0
      ensures slot.Some? <==> AvailableAt(head, tail, bufferSize)
      ensures slot.Some? ==> slot.value == head % bufferSize && slot.value < bufferSize
    {
      if AvailableAt(head, tail, bufferSize) then Some(head % bufferSize) else None
    }

    /** `Size`: the number of live values, `head - tail`, while the tail is not ahead; 0 for equal counters. */
    function Size(): (n: uint64)
      reads this
      ensures tail <= head ==> n == head - tail
      ensures tail == head ==> n == 0
    {
      SizeAt(head, tail, bufferSize)
    }

    /** The public `Available`: the private test on the current counters. */
    function Available(): (b: bool)
      reads this
      ensures bufferSize > 0 && tail <= head <= tail + bufferSize ==> (b <==> head - tail < bufferSize)
    {
      if bufferSize > 0 && tail <= head <= tail + bufferSize then AvailableIffRoom(head, tail, bufferSize); AvailableAt(head, tail, bufferSize) else
      AvailableAt(head, tail, bufferSize)
    }

    /** `Push`: the head moves on by one; the tail and every slot stay. */
    method Push()
      modifies this
      ensures head == Inc64(old(head)) && tail == old(tail)
      ensures ring[..] == old(ring[..])
    {
      head := Inc64(head);
    }

    /** `Pop`: the tail moves on by one; the head and every slot stay. */
    method Pop()
      modifies this
      ensures tail == Inc64(old(tail)) && head == old(head)
      ensures ring[..] == old(ring[..])
    {
      tail := Inc64(tail);
    }
  }
}
