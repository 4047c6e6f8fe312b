/**
 * A typed window into a GPU buffer object (Memory/BufferView.cpp).
 *
 * A view covers `elementCount` elements of `elementSize` bytes starting at
 * byte `offset` of its buffer. Device memory is a byte sequence held by a
 * DeviceBuffer, the model's stand-in for BufferObject.
 */
module BufferViews {
  import opened Numeric

  /** size_t is taken to be 64 bits wide. */
  const TWO_64: int := 0x1_0000_0000_0000_0000

  /**
   * The parts of BufferObject a view relies on. An upload or download that
   * does not fit the buffer is refused by the device (GL_INVALID_VALUE) and
   * changes nothing.
   */
  class DeviceBuffer {
    var valid: bool
    var bytes: seq<byte>

    constructor()
      ensures !valid && bytes == []
    {
      valid := false;
      bytes := [];
    }

    /** BufferObject::allocate: fresh storage of `size` bytes, filled from `initial` when given. */
    method Allocate(size: nat, initial: Option<seq<byte>>)
      requires initial.Some? ==> |initial.value| == size
      modifies this
      ensures valid && |bytes| == size
      ensures initial.Some? ==> bytes == initial.value
    {
      valid := true;
      bytes := if initial.Some? then initial.value else Fill(size, 0);
    }

    /** BufferObject::destroy. */
    method Destroy()
      modifies this
      ensures !valid && bytes == []
    {
      valid := false;
      bytes := [];
    }

    /** BufferObject::upload of `data` at byte `at`. */
    method Upload(data: seq<byte>, at: nat)
      modifies this
      ensures valid == old(valid)
      ensures bytes == if at + |data| <= |old(bytes)| then Splice(old(bytes), at, data) else old(bytes)
    {
      if at + |data| <= |bytes| {
        bytes := Splice(bytes, at, data);
      }
    }
  }

  /**
   * The element count a view derives from its buffer when constructed with
   * count 0: (bufferSize - offset) / elementSize, computed in size_t and
   * stored in a uint32_t.
   */
  function DerivedCount(bufferSize: nat, offset: nat, elementSize: nat): uint32
    requires elementSize > 0
  {
    Trunc32(((bufferSize - offset) % TWO_64) / elementSize)
  }

  /**
   * When the offset lies inside the buffer and the quotient fits 32 bits, the
   * derived view fits in the buffer and leaves less than one element of it
   * unused.
   */
  lemma DerivedViewFillsBuffer(bufferSize: nat, offset: nat, elementSize: nat)
    requires elementSize > 0 && offset <= bufferSize < TWO_64
    requires (bufferSize - offset) / elementSize < TWO_32
    ensures offset + DerivedCount(bufferSize, offset, elementSize) * elementSize <= bufferSize
    ensures bufferSize - (offset + DerivedCount(bufferSize, offset, elementSize) * elementSize) < elementSize
  {
    var x := bufferSize - offset;
    assert x % TWO_64 == x;
    var q := x / elementSize;
    assert DerivedCount(bufferSize, offset, elementSize) == q;
    assert q * elementSize + x % elementSize == x;
  }

  /**
   * The view clauses of BufferView::isValid, on plain numbers: the view is
   * non-empty and ends inside the buffer.
   */
  predicate WindowFits(bufferSize: nat, offset: nat, elementSize: nat, elementCount: nat)
  {
    elementCount > 0 && elementSize > 0 && bufferSize >= offset + elementCount * elementSize
  }

  /** Every element of a window that fits lies inside the buffer. */
  lemma ElementsInWindow(bufferSize: nat, offset: nat, elementSize: nat, elementCount: nat)
    requires WindowFits(bufferSize, offset, elementSize, elementCount)
    ensures forall k :: 0 <= k < elementCount ==> ElementStart(offset, elementSize, k) + elementSize <= bufferSize
  {
    forall k | 0 <= k < elementCount
      ensures ElementStart(offset, elementSize, k) + elementSize <= bufferSize
    {
      MulMonotone(elementSize, k + 1, elementCount);
    }
  }

  lemma MulNonZero(a: nat, b: nat)
    ensures a * b == 0 <==> a == 0 || b == 0
  {
    if a != 0 && b != 0 {
      MulMonotone(a, 1, b);
    }
  }

  /** Byte position of element `k` of a view. */
  function ElementStart(offset: nat, elementSize: nat, k: nat): nat
  {
    offset + elementSize * k
  }

  /** The range check of setValues/getValues keeps every accessed byte inside the buffer. */
  lemma {:induction false} CheckedRangeInBuffer(bufferSize: nat, offset: nat, elementSize: nat, elementCount: nat, index: nat, count: nat)
    requires WindowFits(bufferSize, offset, elementSize, elementCount)
    requires index + count <= elementCount
    ensures ElementStart(offset, elementSize, index) + elementSize * count <= bufferSize
  {
    assert elementSize * index + elementSize * count == elementSize * (index + count);
    assert elementSize * (index + count) <= elementSize * elementCount by {
      MulMonotone(elementSize, index + count, elementCount);
    }
  }

  /**
   * The range check of setValues/getValues as written: the sum index + count
   * is a uint32_t, so it wraps before it is compared with the element count.
   */
  predicate RangeCheckPassesAsWritten(index: uint32, count: uint32, elementCount: uint32)
  {
    Trunc32(index + count) <= elementCount
  }

  /** Without a wrap the check as written is the intended index + count <= elementCount. */
  lemma RangeCheckAsWrittenWithoutWrap(index: uint32, count: uint32, elementCount: uint32)
    requires index + count < TWO_32
    ensures RangeCheckPassesAsWritten(index, count, elementCount) <==> index + count <= elementCount
  {
  }

  /**
   * With the wrap, writing two elements at index UINT32_MAX of a
   * one-element view passes the check as written, although the first
   * element written lies past the end of the view's window.
   */
  lemma RangeCheckWrapAccepts(offset: nat, elementSize: nat)
    requires elementSize > 0
    ensures RangeCheckPassesAsWritten(UINT32_MAX, 2, 1)
    ensures !(UINT32_MAX + 2 <= 1)
    ensures ElementStart(offset, elementSize, UINT32_MAX) >= offset + elementSize * 1
  {
    MulMonotone(elementSize, 1, UINT32_MAX);
  }

  /** Element `k` (of `elementSize` bytes) of the view at `offset` over `bytes`. */
  function Element(bytes: seq<byte>, offset: nat, elementSize: nat, k: nat): seq<byte>
    requires ElementStart(offset, elementSize, k) + elementSize <= |bytes|
  {
    bytes[ElementStart(offset, elementSize, k)..ElementStart(offset, elementSize, k) + elementSize]
  }

  /** One position of a spliced sequence: from `d` inside the window, from `s` outside it. */
  lemma SpliceAt<T>(s: seq<T>, at: nat, d: seq<T>, j: nat)
    requires at + |d| <= |s| && j < |s|
    ensures at <= j < at + |d| ==> Splice(s, at, d)[j] == d[j - at]
    ensures j < at || at + |d| <= j ==> Splice(s, at, d)[j] == s[j]
  {
  }

  /** Overwriting a window of `s` changes the bytes inside it and only those. */
  lemma SpliceWindow<T>(s: seq<T>, at: nat, d: seq<T>, from: nat, len: nat)
    requires at + |d| <= |s| && from + len <= |s|
    ensures at <= from && from + len <= at + |d| ==> Splice(s, at, d)[from..from + len] == d[from - at..from - at + len]
    ensures from + len <= at || at + |d| <= from ==> Splice(s, at, d)[from..from + len] == s[from..from + len]
  {
    var r := Splice(s, at, d);
    if at <= from && from + len <= at + |d| {
      forall j | from <= j < from + len
        ensures r[j] == d[j - at]
      {
        SpliceAt(s, at, d, j);
      }
      assert r[from..from + len] == d[from - at..from - at + len];
    } else if from + len <= at || at + |d| <= from {
      forall j | from <= j < from + len
        ensures r[j] == s[j]
      {
        SpliceAt(s, at, d, j);
      }
      assert r[from..from + len] == s[from..from + len];
    }
  }

  /** Where element `k` lies relative to the elements [index, index + count). */
  lemma ElementPositions(e: nat, index: nat, count: nat, k: nat)
    ensures e * k - e * index == e * (k - index)
    ensures index <= k < index + count ==> e * index <= e * k && e * k + e <= e * index + e * count
    ensures k < index ==> e * k + e <= e * index
    ensures k >= index + count ==> e * k >= e * index + e * count
  {
    if index <= k < index + count {
      MulMonotone(e, index, k);
      MulMonotone(e, k + 1, index + count);
    } else if k < index {
      MulMonotone(e, k + 1, index);
    } else {
      MulMonotone(e, index + count, k);
    }
  }

  /**
   * Writing `count` elements at `index` (setValues) changes exactly those
   * elements: reading an element back yields the written bytes inside the
   * window and the old bytes outside it.
   */
  lemma SetValuesThenElement(bytes: seq<byte>, offset: nat, elementSize: nat, index: nat, data: seq<byte>, count: nat, k: nat)
    requires |data| == elementSize * count
    requires ElementStart(offset, elementSize, index) + |data| <= |bytes|
    requires ElementStart(offset, elementSize, k) + elementSize <= |bytes|
    ensures index <= k < index + count ==>
      (ElementStart(0, elementSize, k - index) + elementSize <= |data|
      && Element(Splice(bytes, ElementStart(offset, elementSize, index), data), offset, elementSize, k)
           == Element(data, 0, elementSize, k - index))
    ensures !(index <= k < index + count) ==>
      Element(Splice(bytes, ElementStart(offset, elementSize, index), data), offset, elementSize, k)
        == Element(bytes, offset, elementSize, k)
  {
    var at := ElementStart(offset, elementSize, index);
    var from := ElementStart(offset, elementSize, k);
    ElementPositions(elementSize, index, count, k);
    SpliceWindow(bytes, at, data, from, elementSize);
    if index <= k < index + count {
      assert from - at == elementSize * (k - index);
    } else {
      assert from + elementSize <= at || at + |data| <= from;
    }
  }

  /** A device command issued by a view. */
  datatype BindCommand = BindRange(target: uint32, location: uint32, offset: nat, size: nat)

  class BufferView {
    var buffer: DeviceBuffer?
    var offset: nat
    var elementSize: uint32
    var elementCount: uint32

    /** The constructor; a view given a buffer but no count spans the rest of that buffer. */
    constructor(buf: DeviceBuffer?, off: nat, eltSize: uint32, count: uint32)
      ensures buffer == buf && offset == off && elementSize == Max(eltSize, 1)
      ensures elementCount == if buf != null && count == 0 then DerivedCount(|buf.bytes|, off, Max(eltSize, 1)) else count
    {
      buffer := buf;
      offset := off;
      elementSize := Max(eltSize, 1);
      elementCount := count;
      if buf != null && count == 0 {
        elementCount := DerivedCount(|buf.bytes|, off, Max(eltSize, 1));
      }
    }

    /**
     * The implicit copy constructor: a second view on the same buffer
     * object, which the two views then share, with the same window.
     */
    constructor Copy(other: BufferView)
      ensures buffer == other.buffer && offset == other.offset
      ensures elementSize == other.elementSize && elementCount == other.elementCount
    {
      buffer := other.buffer;
      offset := other.offset;
      elementSize := other.elementSize;
      elementCount := other.elementCount;
    }

    /** getSize: the view's length in bytes, which ends right after its last element. */
    function Size(): (n: nat)
      reads this
      ensures n == 0 <==> elementSize == 0 || elementCount == 0
      ensures elementCount > 0 ==> ElementStart(offset, elementSize, elementCount - 1) + elementSize == offset + n
    {
      MulNonZero(elementSize, elementCount);
      elementSize * elementCount
    }

    /** isValid: a live buffer that holds every element of the non-empty window. */
    predicate IsValid()
      reads this, buffer
      ensures IsValid() ==> buffer != null && Size() > 0 && offset + Size() <= |buffer.bytes|
      ensures IsValid() ==> buffer != null && forall k :: 0 <= k < elementCount ==> ElementStart(offset, elementSize, k) + elementSize <= |buffer.bytes|
    {
      if buffer != null && buffer.valid && WindowFits(|buffer.bytes|, offset, elementSize, elementCount) then
        ElementsInWindow(|buffer.bytes|, offset, elementSize, elementCount);
        true
      else
        false
    }

    /** swap: exchange buffer, offset and element geometry with `other`; a self-swap does nothing. */
    method Swap(other: BufferView)
      modifies this, other
      ensures other == this ==> (buffer == old(buffer) && offset == old(offset)
        && elementSize == old(elementSize) && elementCount == old(elementCount))
      ensures other != this ==> buffer == old(other.buffer) && other.buffer == old(buffer)
      ensures other != this ==> offset == old(other.offset) && other.offset == old(offset)
      ensures other != this ==> elementSize == old(other.elementSize) && other.elementSize == old(elementSize)
      ensures other != this ==> elementCount == old(other.elementCount) && other.elementCount == old(elementCount)
    {
      if this == other {
        return;
      }
      buffer, other.buffer := other.buffer, buffer;
      offset, other.offset := other.offset, offset;
      elementSize, other.elementSize := other.elementSize, elementSize;
      elementCount, other.elementCount := other.elementCount, elementCount;
    }

    /** bind: a valid view binds its byte range; an invalid one only warns (None). */
    method Bind(target: uint32, location: uint32) returns (cmd: Option<BindCommand>)
      ensures IsValid() ==> cmd == Some(BindRange(target, location, offset, elementSize * elementCount))
      ensures !IsValid() ==> cmd == None
    {
      if IsValid() {
        cmd := Some(BindRange(target, location, offset, Size()));
      } else {
        cmd := None;
      }
    }

    /**
     * allocateBuffer: give the view fresh storage of exactly its own size,
     * creating a buffer object if it has none and releasing the old storage.
     */
    method AllocateBuffer(initial: Option<seq<byte>>)
      requires initial.Some? ==> |initial.value| == elementCount * elementSize
      modifies this, buffer
      ensures old(buffer) != null ==> buffer == old(buffer)
      ensures old(buffer) == null ==> fresh(buffer)
      ensures buffer != null && buffer.valid && |buffer.bytes| == elementCount * elementSize
      ensures initial.Some? ==> buffer.bytes == initial.value
      ensures offset == old(offset) && elementSize == old(elementSize) && elementCount == old(elementCount)
    {
      if buffer == null {
        buffer := new DeviceBuffer();
      }
      if buffer.valid {
        buffer.Destroy();
      }
      buffer.Allocate(elementCount * elementSize, initial);
    }

    /**
     * setValues: write `count` elements starting at element `index`. An
     * invalid view or a range past the last element only warns (ok false).
     */
    method SetValues(index: uint32, count: uint32, data: seq<byte>) returns (ok: bool)
      requires |data| == elementSize * count
      modifies buffer
      ensures ok == old(IsValid() && index + count <= elementCount)
      ensures ok ==> (ElementStart(offset, elementSize, index) + |data| <= |old(buffer.bytes)|
        && buffer.bytes == Splice(old(buffer.bytes), ElementStart(offset, elementSize, index), data))
      ensures !ok && buffer != null ==> buffer.bytes == old(buffer.bytes)
      ensures buffer != null ==> buffer.valid == old(buffer.valid)
    {
      if !IsValid() {
        return false;
      } else if index + count > elementCount {
        return false;
      }
      CheckedRangeInBuffer(|buffer.bytes|, offset, elementSize, elementCount, index, count);
      buffer.Upload(data, ElementStart(offset, elementSize, index));
      ok := true;
    }

    /**
     * getValues: read `count` elements starting at element `index`; None
     * where the source only warns.
     */
    method GetValues(index: uint32, count: uint32) returns (r: Option<seq<byte>>)
      ensures r.Some? <==> IsValid() && index + count <= elementCount
      ensures r.Some? ==> (ElementStart(offset, elementSize, index) + elementSize * count <= |buffer.bytes|
        && r.value == buffer.bytes[ElementStart(offset, elementSize, index)..ElementStart(offset, elementSize, index) + elementSize * count])
    {
      if !IsValid() {
        return None;
      } else if index + count > elementCount {
        return None;
      }
      CheckedRangeInBuffer(|buffer.bytes|, offset, elementSize, elementCount, index, count);
      var at := ElementStart(offset, elementSize, index);
      r := Some(buffer.bytes[at..at + elementSize * count]);
    }
  }
}
