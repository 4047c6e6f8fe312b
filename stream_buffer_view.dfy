/**
 * A multi-buffered view (Memory/StreamBufferView.cpp).
 *
 * The buffer holds `multiBufferCount` consecutive copies ("generations") of
 * a view's elements. The CPU writes the current generation; `swap` fences it
 * off for the GPU and moves on to the next one, wrapping around. Locks are
 * counted in elements of the whole multi-buffer: generation g covers the
 * elements [g * elementCount, (g + 1) * elementCount).
 */
module StreamBufferViews {
  import opened Numeric
  import opened BufferLocks
  import opened BufferViews

  /** The lock range covering element window [index, index + count) of generation `g`. */
  function GenerationWindow(g: nat, elementCount: nat, index: nat, count: nat): BufferRange
  {
    BufferRange(g * elementCount + index, count)
  }

  /**
   * The fence set on a whole generation `g` is hit by a non-empty access to
   * generation `h` if and only if g == h: writing into the generation after a
   * swap never waits for the GPU's use of another generation.
   */
  lemma GenerationsOverlapIffSame(g: nat, h: nat, elementCount: nat, index: nat, count: nat)
    requires count > 0 && index + count <= elementCount
    ensures Overlaps(GenerationWindow(g, elementCount, 0, elementCount), GenerationWindow(h, elementCount, index, count)) <==> g == h
  {
    if g < h {
      MulMonotone(elementCount, g + 1, h);
      assert g * elementCount + elementCount == (g + 1) * elementCount;
    } else if h < g {
      MulMonotone(elementCount, h + 1, g);
      assert h * elementCount + elementCount == (h + 1) * elementCount;
    }
  }

  /** The generation `swap` moves to. */
  function NextGeneration(head: nat, count: nat): (r: nat)
    requires count > 0
    ensures r < count
    ensures head + 1 < count ==> r == head + 1
    ensures head + 1 == count ==> r == 0
  {
    (head + 1) % count
  }

  /** Starting at generation 0, `k` swaps land on generation k mod count: every generation is used in turn. */
  lemma SwapsCycleThroughGenerations(count: nat, k: nat)
    requires count > 0
    ensures Swaps(count, k) == k % count
  {
    var q := SwapsQuotient(count, k);
    ModOfSum(q, count, Swaps(count, k));
  }

  /** `k` swaps go round the ring of generations `q` full times and then some. */
  lemma {:induction false} SwapsQuotient(count: nat, k: nat) returns (q: nat)
    requires count > 0
    ensures Swaps(count, k) < count && k == q * count + Swaps(count, k)
  {
    if k == 0 {
      q := 0;
    } else {
      var q' := SwapsQuotient(count, k - 1);
      var s := Swaps(count, k - 1);
      if s + 1 < count {
        q := q';
      } else {
        q := q' + 1;
        assert (q' + 1) * count == q' * count + count;
      }
    }
  }

  /** The generation reached after `k` swaps from generation 0. */
  function Swaps(count: nat, k: nat): nat
    requires count > 0
  {
    if k == 0 then 0 else NextGeneration(Swaps(count, k - 1), count)
  }

  class StreamBufferView {
    const view: BufferView
    var lock: BufferLockManager
    var baseOffset: nat
    var multiBufferCount: uint32
    var multiBufferHead: uint32
    var head: uint32

    /** The constructor: a view over `buf` at generation 0 with no locks. */
    constructor(count: uint32, buf: DeviceBuffer?, off: nat, eltSize: uint32, eltCount: uint32)
      ensures fresh(view) && fresh(lock)
      ensures view.buffer == buf && view.offset == off && view.elementSize == Max(eltSize, 1)
      ensures view.elementCount == if buf != null && eltCount == 0 then DerivedCount(|buf.bytes|, off, Max(eltSize, 1)) else eltCount
      ensures baseOffset == off && multiBufferCount == count && multiBufferHead == 0 && head == 0
      ensures lock.locks == []
    {
      view := new BufferView(buf, off, eltSize, eltCount);
      lock := new BufferLockManager();
      baseOffset := off;
      multiBufferCount := count;
      multiBufferHead := 0;
      head := 0;
    }

    /** setBaseOffset. */
    method SetBaseOffset(off: nat)
      modifies this
      ensures baseOffset == off
      ensures lock == old(lock) && multiBufferCount == old(multiBufferCount)
      ensures multiBufferHead == old(multiBufferHead) && head == old(head)
    {
      baseOffset := off;
    }

    /** setMultiBufferCount: a new generation count restarts at generation 0 and drops all locks. */
    method SetMultiBufferCount(count: uint32)
      modifies this
      ensures multiBufferCount == count && multiBufferHead == 0 && head == 0
      ensures fresh(lock) && lock.locks == []
      ensures baseOffset == old(baseOffset)
    {
      multiBufferCount := count;
      multiBufferHead := 0;
      head := 0;
      lock := new BufferLockManager();
    }

    /**
     * allocateBuffer: fresh storage for all generations, with the view back
     * at offset 0 and generation 0. The locks are kept.
     */
    method AllocateBuffer(initial: Option<seq<byte>>)
      requires initial.Some? ==> |initial.value| == view.elementSize * view.elementCount * multiBufferCount
      modifies this, view, view.buffer
      ensures old(view.buffer) != null ==> view.buffer == old(view.buffer)
      ensures old(view.buffer) == null ==> fresh(view.buffer)
      ensures view.buffer != null && view.buffer.valid
      ensures |view.buffer.bytes| == view.elementSize * view.elementCount * multiBufferCount
      ensures initial.Some? ==> view.buffer.bytes == initial.value
      ensures view.offset == 0 && multiBufferHead == 0 && head == 0
      ensures view.elementSize == old(view.elementSize) && view.elementCount == old(view.elementCount)
      ensures baseOffset == old(baseOffset) && multiBufferCount == old(multiBufferCount) && lock == old(lock)
    {
      if view.buffer == null {
        view.buffer := new DeviceBuffer();
      }
      if view.buffer.valid {
        view.buffer.Destroy();
      }
      view.offset := 0;
      multiBufferHead := 0;
      head := 0;
      view.buffer.Allocate(view.Size() * multiBufferCount, initial);
    }

    /**
     * setValues: wait for the GPU on every fenced range that overlaps the
     * elements written in the current generation, then write them.
     */
    method SetValues(index: uint32, count: uint32, data: seq<byte>) returns (waited: seq<BufferRange>, ok: bool)
      requires |data| == view.elementSize * count
      modifies lock, view.buffer
      ensures count > 0 ==> lock.locks == Kept(old(lock.locks), GenerationWindow(multiBufferHead, view.elementCount, index, count))
      ensures count > 0 ==> waited == Waited(old(lock.locks), GenerationWindow(multiBufferHead, view.elementCount, index, count))
      ensures count == 0 ==> lock.locks == old(lock.locks) && waited == []
      ensures ok == old(view.IsValid() && index + count <= view.elementCount)
      ensures ok ==> (ElementStart(view.offset, view.elementSize, index) + |data| <= |old(view.buffer.bytes)|
        && view.buffer.bytes == Splice(old(view.buffer.bytes), ElementStart(view.offset, view.elementSize, index), data))
      ensures !ok && view.buffer != null ==> view.buffer.bytes == old(view.buffer.bytes)
    {
      var start := multiBufferHead * view.elementCount + index;
      assert GenerationWindow(multiBufferHead, view.elementCount, index, count) == BufferRange(start, count);
      waited := lock.WaitForLockedRange(start, count);
      ok := view.SetValues(index, count, data);
    }

    /** getValues: wait like setValues, then read. */
    method GetValues(index: uint32, count: uint32) returns (waited: seq<BufferRange>, r: Option<seq<byte>>)
      modifies lock
      ensures count > 0 ==> lock.locks == Kept(old(lock.locks), GenerationWindow(multiBufferHead, view.elementCount, index, count))
      ensures count > 0 ==> waited == Waited(old(lock.locks), GenerationWindow(multiBufferHead, view.elementCount, index, count))
      ensures count == 0 ==> lock.locks == old(lock.locks) && waited == []
      ensures r.Some? <==> view.IsValid() && index + count <= view.elementCount
      ensures r.Some? ==> (ElementStart(view.offset, view.elementSize, index) + view.elementSize * count <= |view.buffer.bytes|
        && r.value == view.buffer.bytes[ElementStart(view.offset, view.elementSize, index)..ElementStart(view.offset, view.elementSize, index) + view.elementSize * count])
    {
      var start := multiBufferHead * view.elementCount + index;
      assert GenerationWindow(multiBufferHead, view.elementCount, index, count) == BufferRange(start, count);
      waited := lock.WaitForLockedRange(start, count);
      r := view.GetValues(index, count);
    }

    /**
     * swap: fence the current generation, move to the next one (wrapping
     * around), point the view at it and restart its write head.
     */
    method Swap()
      requires multiBufferCount > 0
      modifies this, view, lock
      ensures lock == old(lock)
      ensures baseOffset == old(baseOffset) && multiBufferCount == old(multiBufferCount)
      ensures lock.locks == old(lock.locks) + (if view.elementCount > 0 then [GenerationWindow(old(multiBufferHead), view.elementCount, 0, view.elementCount)] else [])
      ensures multiBufferHead == NextGeneration(old(multiBufferHead), multiBufferCount)
      ensures view.offset == baseOffset + multiBufferHead * view.Size()
      ensures head == 0
      ensures view.buffer == old(view.buffer) && view.elementSize == old(view.elementSize) && view.elementCount == old(view.elementCount)
    {
      lock.LockRange(multiBufferHead * view.elementCount, view.elementCount);
      multiBufferHead := (multiBufferHead + 1) % multiBufferCount;
      view.offset := baseOffset + multiBufferHead * view.Size();
      head := 0;
    }
  }
}
