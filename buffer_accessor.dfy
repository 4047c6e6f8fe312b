/**
 * Cursor-based access to a mapped OpenCL buffer (CL/Memory/BufferAccessor.h,
 * CL/Memory/BufferAccessor.cpp).
 *
 * Values of a type T are handled as their sizeof(T) bytes. While the buffer
 * is mapped, writes and reads advance a cursor; an access that would run
 * past the end of the buffer only warns and leaves everything unchanged.
 */
module BufferAccessors {
  import opened Numeric

  /** The bytes of a sequence of values, one after another (std::copy into the buffer). */
  function Flatten(values: seq<seq<byte>>): (r: seq<byte>)
  {
    if values == [] then [] else values[0] + Flatten(values[1..])
  }

  /** `n` consecutive values of `width` bytes cut from the front of `bytes`. */
  function Chunks(bytes: seq<byte>, width: nat, n: nat): (r: seq<seq<byte>>)
    requires width * n <= |bytes|
    ensures |r| == n
    ensures forall i :: 0 <= i < n ==> |r[i]| == width
  {
    if n == 0 then []
    else
      assert width * n == width + width * (n - 1);
      [bytes[..width]] + Chunks(bytes[width..], width, n - 1)
  }

  /** Values of one fixed width take width * count bytes when flattened. */
  lemma {:induction false} FlattenLength(values: seq<seq<byte>>, width: nat)
    requires forall i :: 0 <= i < |values| ==> |values[i]| == width
    ensures |Flatten(values)| == width * |values|
  {
    if values != [] {
      FlattenLength(values[1..], width);
      assert width * |values| == width + width * (|values| - 1);
    }
  }

  /** Reading back as many values as were written yields the written values (readArray after writeArray). */
  lemma {:induction false} ChunksOfFlatten(values: seq<seq<byte>>, width: nat, rest: seq<byte>)
    requires forall i :: 0 <= i < |values| ==> |values[i]| == width
    ensures width * |values| <= |Flatten(values) + rest|
    ensures Chunks(Flatten(values) + rest, width, |values|) == values
  {
    FlattenLength(values, width);
    if values != [] {
      var tail := values[1..];
      ChunksOfFlatten(tail, width, rest);
      var all := Flatten(values) + rest;
      assert all == values[0] + (Flatten(tail) + rest);
      assert all[..width] == values[0];
      assert all[width..] == Flatten(tail) + rest;
      assert width * |values| == width + width * |tail|;
    }
  }

  class BufferAccessor {
    /** The accessed buffer's size in bytes (BufferAccessor::size). */
    const size: nat
    /** The buffer's contents. */
    var memory: seq<byte>
    /** isValid(): the buffer is currently mapped (dataPtr != nullptr). */
    var mapped: bool
    var cursor: nat

    ghost predicate Valid()
      reads this
    {
      |memory| == size && cursor <= size
    }

    /** The constructor: unmapped, cursor at 0. */
    constructor(contents: seq<byte>)
      ensures Valid() && size == |contents| && memory == contents && !mapped && cursor == 0
    {
      size := |contents|;
      memory := contents;
      mapped := false;
      cursor := 0;
    }

    /**
     * begin: map the buffer and rewind the cursor; warns if already mapped.
     * `mapSucceeds` is the outcome of the command queue's map request.
     */
    method Begin(mapSucceeds: bool) returns (warning: bool)
      requires Valid()
      modifies this
      ensures Valid() && memory == old(memory)
      ensures warning == old(mapped)
      ensures warning ==> mapped && cursor == old(cursor)
      ensures !warning ==> mapped == mapSucceeds && cursor == 0
    {
      if mapped {
        return true;
      }
      warning := false;
      cursor := 0;
      mapped := mapSucceeds;
    }

    /** end: unmap; warns if not mapped. */
    method End() returns (warning: bool)
      requires Valid()
      modifies this
      ensures Valid() && memory == old(memory) && cursor == old(cursor)
      ensures warning == !old(mapped)
      ensures !mapped
    {
      warning := !mapped;
      mapped := false;
    }

    /** setCursor: clamp to the buffer size. */
    method SetCursor(offset: nat)
      requires Valid()
      modifies this
      ensures Valid() && memory == old(memory) && mapped == old(mapped)
      ensures cursor == Min(offset, size)
    {
      cursor := Min(offset, size);
    }

    /** write: store one value's bytes at the cursor and advance past them. */
    method Write(value: seq<byte>) returns (ok: bool)
      requires Valid()
      modifies this
      ensures Valid() && mapped == old(mapped)
      ensures ok == (old(mapped) && old(cursor) + |value| <= size)
      ensures ok ==> memory == Splice(old(memory), old(cursor), value) && cursor == old(cursor) + |value|
      ensures !ok ==> memory == old(memory) && cursor == old(cursor)
    {
      if !mapped {
        return false;
      }
      if cursor + |value| > size {
        return false;
      }
      memory := Splice(memory, cursor, value);
      cursor := cursor + |value|;
      ok := true;
    }

    /** writeArray: store values of `width` bytes each, back to back, if all of them fit. */
    method WriteArray(values: seq<seq<byte>>, width: nat) returns (ok: bool)
      requires Valid()
      requires forall i :: 0 <= i < |values| ==> |values[i]| == width
      modifies this
      ensures Valid() && mapped == old(mapped)
      ensures ok == (old(mapped) && old(cursor) + width * |values| <= size)
      ensures ok ==> (|Flatten(values)| == width * |values|
        && memory == Splice(old(memory), old(cursor), Flatten(values)) && cursor == old(cursor) + width * |values|)
      ensures !ok ==> memory == old(memory) && cursor == old(cursor)
    {
      if !mapped {
        return false;
      }
      if cursor + width * |values| > size {
        return false;
      }
      FlattenLength(values, width);
      memory := Splice(memory, cursor, Flatten(values));
      cursor := cursor + width * |values|;
      ok := true;
    }

    /** read: the `width` bytes at the cursor, advancing past them; None where the source warns. */
    method Read(width: nat) returns (r: Option<seq<byte>>)
      requires Valid()
      modifies this
      ensures Valid() && mapped == old(mapped) && memory == old(memory)
      ensures r.Some? == (old(mapped) && old(cursor) + width <= size)
      ensures r.Some? ==> r.value == memory[old(cursor)..old(cursor) + width] && cursor == old(cursor) + width
      ensures r.None? ==> cursor == old(cursor)
    {
      if !mapped {
        return None;
      }
      if cursor + width > size {
        return None;
      }
      r := Some(memory[cursor..cursor + width]);
      cursor := cursor + width;
    }

    /** readArray: `n` values of `width` bytes at the cursor; an empty list where the source warns. */
    method ReadArray(width: nat, n: nat) returns (r: seq<seq<byte>>)
      requires Valid()
      modifies this
      ensures Valid() && mapped == old(mapped) && memory == old(memory)
      ensures old(mapped) && old(cursor) + width * n <= size ==>
        (r == Chunks(memory[old(cursor)..], width, n) && cursor == old(cursor) + width * n)
      ensures !(old(mapped) && old(cursor) + width * n <= size) ==> r == [] && cursor == old(cursor)
    {
      if !mapped {
        return [];
      }
      if cursor + width * n > size {
        return [];
      }
      r := Chunks(memory[cursor..], width, n);
      cursor := cursor + width * n;
    }
  }
}
