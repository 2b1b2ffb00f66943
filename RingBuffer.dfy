/**
 * The "magic" ring buffer of src/ringbuffer.c: one physical region of
 * `capacity` bytes mapped four times in a row, so that the unread data and
 * the free space are each one contiguous run of virtual addresses.
 *
 * The physical region is `memory`; a virtual index `v < 4 * capacity` names
 * physical byte `Alias(v)`, which is `v % capacity`. The unread bytes, oldest
 * first, are the ghost `Contents`.
 */
module RingBuffer {
  import opened Ints

  /** A view handed to the caller: `length` bytes from virtual index `start`. */
  datatype View = View(start: int, length: nat)

  const MinimumSize: int := 4096

  /**
   * `get_ringbuffer_size`: 4096 rounded up to a whole number of pages, in
   * unsigned 32-bit arithmetic. For page sizes within 4095 of 2^32 the
   * rounding sum wraps and the result is 0.
   */
  function GetRingbufferSize(pageSize: uint32): (r: uint32)
    requires pageSize > 0
    ensures pageSize <= TwoTo32 - MinimumSize ==> r % pageSize == 0 && MinimumSize <= r < MinimumSize + pageSize
    ensures pageSize > TwoTo32 - MinimumSize ==> r == 0
  {
    // `sz - 1 + 4096` as an unsigned int: it wraps once when it reaches 2^32
    var sum := if pageSize - 1 + MinimumSize >= TwoTo32 then pageSize - 1 + MinimumSize - TwoTo32 else pageSize - 1 + MinimumSize;
    RoundDown(sum, pageSize)
  }

  /** `x / m * m`: the largest multiple of `m` not above `x`. */
  function RoundDown(x: nat, m: nat): (r: nat)
    requires m > 0
    ensures r % m == 0 && r <= x < r + m
    ensures x < m ==> r == 0
  {
    var q := x / m;
    ModUnique(x, m, q, x % m);
    assert x == q * m + x % m;
    ModUnique(q * m, m, q, 0);
    q * m
  }

  class RingBuffer {
    /** `get_ringbuffer_size()`. */
    const capacity: nat
    /** The shared memory object behind all four mappings. */
    const memory: array<byte>
    var offset: nat
    var size: nat
    ghost var Contents: seq<byte>

    ghost predicate Valid()
      reads this, memory
    {
      && 0 < capacity && memory.Length == capacity
      && offset < capacity && size <= capacity && |Contents| == size
      && forall k :: 0 <= k < size ==> memory[Alias(capacity + offset + k)] == Contents[k]
    }

    /** The physical byte behind virtual index `v`: each of the four mappings starts over at physical byte 0. */
    function Alias(v: int): (p: int)
      reads this
      requires 0 < capacity && 0 <= v < 4 * capacity
      ensures 0 <= p < capacity
    {
      if v < capacity then v
      else if v < 2 * capacity then v - capacity
      else if v < 3 * capacity then v - 2 * capacity
      else v - 3 * capacity
    }

    /** A fresh, empty buffer (`ringbuffer_create`, with `calloc` zeroing `offset` and `size`). */
    constructor (pageSize: uint32)
      requires 0 < pageSize <= TwoTo32 - MinimumSize
      ensures Valid() && fresh(memory)
      ensures capacity == GetRingbufferSize(pageSize) && Contents == []
    {
      capacity := GetRingbufferSize(pageSize);
      memory := new byte[GetRingbufferSize(pageSize)](_ => 0);
      offset, size := 0, 0;
      Contents := [];
    }

    /**
     * `ringbuffer_get_read_buffer`: the unread bytes, starting in the second
     * mapping and running at most into the third.
     */
    function ReadView(): (v: View)
      reads this, memory
      requires Valid()
      ensures v.length == |Contents|
      ensures capacity <= v.start && v.start + v.length <= 3 * capacity
      ensures forall k :: 0 <= k < v.length ==> memory[Alias(v.start + k)] == Contents[k]
    {
      View(capacity + offset, size)
    }

    /**
     * `ringbuffer_get_write_buffer`: the free space, starting directly after the
     * unread bytes and lying within the first two (writable) mappings.
     */
    function WriteView(): (v: View)
      reads this, memory
      requires Valid()
      ensures 0 <= v.start < capacity && v.start + v.length <= 2 * capacity
      ensures v.length + ReadView().length == capacity
      ensures Alias(v.start) == Alias(ReadView().start + ReadView().length)
    {
      var start := if size + offset >= capacity then size + offset - capacity else size + offset;
      View(start, capacity - size)
    }

    /** The byte at position `k` of the write view. */
    function WriteByte(k: nat): (b: byte)
      reads this, memory
      requires Valid() && k < WriteView().length
    {
      memory[Alias(WriteView().start + k)]
    }

    /** The first `n` bytes of the write view, as they are now in memory. */
    ghost function Pending(n: nat): (s: seq<byte>)
      reads this, memory
      requires Valid() && n <= WriteView().length
      ensures |s| == n && forall k :: 0 <= k < n ==> s[k] == WriteByte(k)
    {
      if n == 0 then [] else Pending(n - 1) + [WriteByte(n - 1)]
    }

    /** The caller stores byte `b` at position `k` of the write view: the unread bytes and the rest of the free space are untouched. */
    method Store(k: nat, b: byte)
      requires Valid() && k < WriteView().length
      modifies memory
      ensures Valid() && Contents == old(Contents) && offset == old(offset) && size == old(size)
      ensures WriteByte(k) == b
      ensures forall j :: 0 <= j < WriteView().length && j != k ==> WriteByte(j) == old(WriteByte(j))
    {
      var w := WriteView();
      memory[Alias(w.start + k)] := b;
    }

    /**
     * `ringbuffer_discard`: drops the oldest `count` bytes, `count` clamped to
     * `[0, size]`; the read position moves on by as many, modulo the capacity.
     */
    method Discard(count: int)
      requires Valid()
      modifies this
      ensures Valid()
      ensures var c := if count < 0 then 0 else if count > old(size) then old(size) else count;
        && size == old(size) - c
        && offset == (old(offset) + c) % capacity
        && Contents == old(Contents)[c..]
    {
      var c := count;
      if c < 0 {
        c := 0;
      }
      if c > size {
        c := size;
      }
      var o := offset;
      size := size - c;
      o := o + c;
      if o >= capacity {
        o := o - capacity;
      }
      offset := o;
      Contents := Contents[c..];
      ModUnique(old(offset) + c, capacity, if old(offset) + c >= capacity then 1 else 0, o);
    }

    /**
     * `ringbuffer_commit`: the first `count` bytes of the write view become
     * unread data, up to the capacity; a negative count changes nothing and the
     * read position never moves.
     */
    method Commit(count: int)
      requires Valid()
      modifies this
      ensures Valid() && offset == old(offset)
      ensures count < 0 ==> size == old(size) && Contents == old(Contents)
      ensures count >= 0 ==>
        && size == (if old(size) + count > capacity then capacity else old(size) + count)
        && var added := size - old(size); Contents == old(Contents) + old(Pending(added))
    {
      if count < 0 {
        return;
      }
      var c := count;
      if c > capacity {
        c := capacity;
      }
      c := c + size;
      if c > capacity {
        c := capacity;
      }
      Extend(c - size);
    }

    /** `rb->size = count` of `ringbuffer_commit`: the unread bytes grow by the first `n` bytes of the write view. */
    method Extend(n: nat)
      requires Valid() && n <= WriteView().length
      modifies this
      ensures Valid() && offset == old(offset) && size == old(size) + n
      ensures Contents == old(Contents) + old(Pending(n))
    {
      ghost var added := Pending(n);
      ghost var before, unread := size, Contents;
      CommittedBytesFollowUnread(this, n);
      size := size + n;
      Contents := Contents + added;
      forall k | 0 <= k < size
        ensures memory[Alias(capacity + offset + k)] == Contents[k]
      {
        if k < before {
          assert Contents[k] == unread[k];
        } else {
          assert Contents[k] == added[k - before];
          assert capacity + offset + k == capacity + offset + before + (k - before);
        }
      }
    }
  }

  /** Each of the four mappings shows the physical region from its start: virtual index `v` is physical byte `v % capacity`. */
  lemma AliasIsModulo(rb: RingBuffer, v: int)
    requires 0 < rb.capacity && 0 <= v < 4 * rb.capacity
    ensures rb.Alias(v) == v % rb.capacity
  {
    var c := rb.capacity;
    var q := if v < c then 0 else if v < 2 * c then 1 else if v < 3 * c then 2 else 3;
    ModUnique(v, c, q, rb.Alias(v));
  }

  /** Bytes stored in the write view and then committed are read back, in order, after the bytes that were unread before. */
  lemma CommittedBytesFollowUnread(rb: RingBuffer, n: nat)
    requires rb.Valid() && n <= rb.WriteView().length
    ensures forall k :: 0 <= k < n ==>
      rb.memory[rb.Alias(rb.capacity + rb.offset + rb.size + k)] == rb.Pending(n)[k]
  {
    var r, w := rb.ReadView(), rb.WriteView();
    forall k | 0 <= k < n
      ensures rb.memory[rb.Alias(r.start + r.length + k)] == rb.Pending(n)[k]
    {
      assert rb.Alias(r.start + r.length + k) == rb.Alias(w.start + k);
    }
  }
}
