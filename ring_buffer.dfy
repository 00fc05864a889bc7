// Model of RingBuffer (core/ringbuffer.h): a fixed array of bufferSize slots
// written round-robin. writeCount counts every object ever written; each
// reader keeps its own readCount and reads the slots between the two. The
// ghost sequence `written` records every object written, so that what a
// reader gets can be stated against the order of writing.
module RingBuffer {
  import opened Common

  /**
   * The slot an object with sequence number k goes to: k modulo size,
   * written as repeated subtraction.
   */
  function Slot(k: nat, size: nat): (s: nat)
    requires size >= 1
    ensures s < size
    ensures k < size ==> s == k
    decreases k
  {
    if k < size then k else Slot(k - size, size)
  }

  /**
   * Fewer than `size` consecutive writes never reuse a slot, so an object is
   * not overwritten before `size` newer ones have been written.
   */
  lemma {:induction false} SlotsDistinct(k: nat, j: nat, size: nat)
    requires size >= 1 && k < j < k + size
    ensures Slot(k, size) != Slot(j, size)
    decreases k
  {
    if k >= size {
      assert Slot(k, size) == Slot(k - size, size);
      assert Slot(j, size) == Slot(j - size, size);
      SlotsDistinct(k - size, j - size, size);
    } else if j >= size {
      assert Slot(j, size) == Slot(j - size, size);
    }
  }

  /** RingBufferReader: how many objects this reader has read. */
  class Reader<T> {
    var readCount: nat

    constructor ()
      ensures readCount == 0
    {
      readCount := 0;
    }
  }

  class Buffer<T(0)> {
    const bufferSize: nat
    const slots: array<T>
    var writeCount: nat
    /** Connected readers. */
    var readers: set<Reader<T>>
    /** Every object written so far, oldest first. */
    ghost var written: seq<T>

    /**
     * The last bufferSize objects written are in their slots; with no slots
     * nothing has been written.
     */
    ghost predicate Valid()
      reads this, slots
    {
      && slots.Length == bufferSize
      && |written| == writeCount
      && (bufferSize == 0 ==> writeCount == 0)
      && forall k :: 0 <= k < writeCount && writeCount - bufferSize <= k ==> slots[Slot(k, bufferSize)] == written[k]
    }

    constructor (size: nat)
      ensures Valid()
      ensures bufferSize == size && writeCount == 0 && readers == {} && written == []
      ensures fresh(slots)
    {
      bufferSize := size;
      slots := new T[size];
      writeCount := 0;
      readers := {};
      written := [];
    }

    /**
     * read: copy up to n objects, oldest unread first, and advance the
     * reader; when at most bufferSize objects were unread these are exactly
     * the next objects written, in order.
     */
    method Read(n: nat, reader: Reader<T>) returns (values: seq<T>)
      requires Valid() && reader.readCount <= writeCount
      modifies reader
      ensures Valid()
      ensures |values| == Min(n, writeCount - old(reader.readCount))
      ensures reader.readCount == old(reader.readCount) + |values| <= writeCount
      ensures forall i :: 0 <= i < |values| ==> values[i] == slots[Slot(old(reader.readCount) + i, bufferSize)]
      ensures writeCount - old(reader.readCount) <= bufferSize ==>
                values == written[old(reader.readCount)..reader.readCount]
    {
      values := [];
      ghost var start := reader.readCount;
      while |values| < n && reader.readCount != writeCount
        invariant reader.readCount == start + |values| <= writeCount
        invariant |values| <= n
        invariant forall i :: 0 <= i < |values| ==> values[i] == slots[Slot(start + i, bufferSize)]
        decreases writeCount - reader.readCount
      {
        values := values + [slots[Slot(reader.readCount, bufferSize)]];
        reader.readCount := reader.readCount + 1;
      }
      if writeCount - start <= bufferSize {
        forall i | 0 <= i < |values|
          ensures values[i] == written[start..reader.readCount][i]
        {
          assert slots[Slot(start + i, bufferSize)] == written[start + i];
        }
      }
    }

    /** nextSlot: the slot the next object goes to. */
    function NextSlot(): (s: nat)
      requires bufferSize >= 1
      reads this
      ensures s < bufferSize && s == Slot(writeCount, bufferSize)
    {
      Slot(writeCount, bufferSize)
    }

    /** commit: the object placed in the next slot counts as written. */
    method Commit(ghost item: T)
      requires slots.Length == bufferSize >= 1 && |written| == writeCount
      requires slots[NextSlot()] == item
      requires forall k :: 0 <= k < writeCount && writeCount + 1 - bufferSize <= k ==>
                 slots[Slot(k, bufferSize)] == written[k]
      modifies this`writeCount, this`written
      ensures Valid()
      ensures writeCount == old(writeCount) + 1 && written == old(written) + [item]
    {
      ghost var wc := writeCount;
      writeCount := writeCount + 1;
      written := written + [item];
      forall k | 0 <= k < writeCount && writeCount - bufferSize <= k
        ensures slots[Slot(k, bufferSize)] == written[k]
      {
        if k < wc {
          assert written[k] == old(written)[k];
        }
      }
    }

    /** One step of write: store the object in the next slot and commit it. */
    method Put(item: T)
      requires Valid() && bufferSize >= 1
      modifies this`writeCount, this`written, slots
      ensures Valid()
      ensures writeCount == old(writeCount) + 1 && written == old(written) + [item]
      ensures slots[..] == old(slots[..])[Slot(old(writeCount), bufferSize) := item]
    {
      var s := NextSlot();
      ghost var before := slots[..];
      slots[s] := item;
      forall k | 0 <= k < writeCount && writeCount + 1 - bufferSize <= k
        ensures slots[Slot(k, bufferSize)] == written[k]
      {
        SlotsDistinct(k, writeCount, bufferSize);
        assert slots[Slot(k, bufferSize)] == before[Slot(k, bufferSize)];
      }
      Commit(item);
    }

    /**
     * write: place the objects in order at consecutive slots, committing
     * each one. The readers are left alone.
     */
    method Write(values: seq<T>)
      requires Valid()
      requires values != [] ==> bufferSize >= 1
      modifies this`writeCount, this`written, slots
      ensures Valid()
      ensures writeCount == old(writeCount) + |values| && written == old(written) + values
      ensures forall i :: 0 <= i < |values| && |values| - i <= bufferSize ==>
                slots[Slot(old(writeCount) + i, bufferSize)] == values[i]
    {
      var i := 0;
      while i < |values|
        invariant 0 <= i <= |values|
        invariant Valid()
        invariant writeCount == old(writeCount) + i && written == old(written) + values[..i]
        decreases |values| - i
      {
        Put(values[i]);
        assert values[..i] + [values[i]] == values[..i + 1];
        i := i + 1;
      }
      assert values[..i] == values;
      forall j | 0 <= j < |values| && |values| - j <= bufferSize
        ensures slots[Slot(old(writeCount) + j, bufferSize)] == values[j]
      {
        assert written[old(writeCount) + j] == values[j];
      }
    }

    /** joinTypeChecked: a joining reader starts at the current write count. */
    method Join(reader: Reader<T>)
      modifies this`readers, reader
      ensures reader.readCount == writeCount
      ensures readers == old(readers) + {reader}
    {
      reader.readCount := writeCount;
      readers := readers + {reader};
    }

    /** unjoinTypeChecked: only that reader is disconnected. */
    method Unjoin(reader: Reader<T>)
      modifies this`readers
      ensures readers == old(readers) - {reader}
    {
      readers := readers - {reader};
    }
  }
}
