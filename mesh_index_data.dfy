/**
 * The index data of a mesh (Mesh/MeshIndexData.cpp): a local array of
 * uint32_t vertex indices, its cached minimum and maximum, a changed flag,
 * and a view of the device buffer the indices are uploaded to.
 *
 * Indices travel to and from the device buffer as four little-endian bytes
 * each.
 */
module MeshIndexDatas {
  import opened Numeric
  import opened BufferViews

  /** sizeof(uint32_t). */
  const INDEX_SIZE: uint32 := 4

  // ---------------------------------------------------------------------------
  // Byte encoding of indices

  /** The four little-endian bytes of an index. */
  function EncodeIndex(x: uint32): (r: seq<byte>)
    ensures |r| == 4
  {
    [x % 256, x / 256 % 256, x / 256 / 256 % 256, x / 256 / 256 / 256]
  }

  /** The index whose little-endian bytes are `b`. */
  function DecodeIndex(b: seq<byte>): (r: uint32)
    requires |b| == 4
  {
    b[0] as int + 256 * (b[1] as int + 256 * (b[2] as int + 256 * b[3] as int))
  }

  lemma DecodeEncodeIndex(x: uint32)
    ensures DecodeIndex(EncodeIndex(x)) == x
  {
    var q1 := x / 256;
    var q2 := q1 / 256;
    var q3 := q2 / 256;
    var b := EncodeIndex(x);
    assert b[0] == x % 256 && b[1] == q1 % 256 && b[2] == q2 % 256 && b[3] == q3;
    assert q2 == q3 * 256 + q2 % 256;
    assert q1 == q2 * 256 + q1 % 256;
    assert x == q1 * 256 + x % 256;
  }

  /** The bytes of a run of indices. */
  function EncodeIndices(xs: seq<uint32>): (r: seq<byte>)
    ensures |r| == 4 * |xs|
  {
    if xs == [] then [] else EncodeIndices(xs[..|xs| - 1]) + EncodeIndex(xs[|xs| - 1])
  }

  /** The indices stored in a run of bytes whose length is a multiple of four. */
  function DecodeIndices(b: seq<byte>): (r: seq<uint32>)
    requires |b| % 4 == 0
    ensures |r| == |b| / 4
  {
    if b == [] then [] else DecodeIndices(b[..|b| - 4]) + [DecodeIndex(b[|b| - 4..])]
  }

  /** Decoding the bytes of the first k indices gives back those indices. */
  lemma {:induction false} DecodeEncodePrefix(xs: seq<uint32>, k: nat)
    requires k <= |xs|
    ensures DecodeIndices(EncodeIndices(xs)[..4 * k]) == xs[..k]
    decreases |xs|
  {
    if k == 0 {
      assert EncodeIndices(xs)[..0] == [];
    } else if k < |xs| {
      var init := xs[..|xs| - 1];
      assert EncodeIndices(xs) == EncodeIndices(init) + EncodeIndex(xs[|xs| - 1]);
      assert EncodeIndices(xs)[..4 * k] == EncodeIndices(init)[..4 * k];
      DecodeEncodePrefix(init, k);
      assert init[..k] == xs[..k];
    } else {
      DecodeEncodeAll(xs);
      assert EncodeIndices(xs)[..4 * k] == EncodeIndices(xs);
      assert xs[..k] == xs;
    }
  }

  /** Decoding the bytes of a run of indices gives back the run. */
  lemma {:induction false} DecodeEncodeAll(xs: seq<uint32>)
    ensures DecodeIndices(EncodeIndices(xs)) == xs
    decreases |xs|
  {
    if xs != [] {
      var init := xs[..|xs| - 1];
      var b := EncodeIndices(xs);
      assert b == EncodeIndices(init) + EncodeIndex(xs[|xs| - 1]);
      assert b[..|b| - 4] == EncodeIndices(init);
      assert b[|b| - 4..] == EncodeIndex(xs[|xs| - 1]);
      assert DecodeIndices(b) == DecodeIndices(b[..|b| - 4]) + [DecodeIndex(b[|b| - 4..])];
      DecodeEncodeAll(init);
      DecodeEncodeIndex(xs[|xs| - 1]);
      assert xs == init + [xs[|xs| - 1]];
    }
  }

  // ---------------------------------------------------------------------------
  // Specification of the local operations

  /** std::vector::resize(n, fill): keep the first n entries and pad with `fill`. */
  function Resized(xs: seq<uint32>, n: nat, fill: uint32): (r: seq<uint32>)
    ensures |r| == n
    ensures forall i :: 0 <= i < n && i < |xs| ==> r[i] == xs[i]
    ensures forall i :: |xs| <= i < n ==> r[i] == fill
  {
    if n <= |xs| then xs[..n] else xs + Fill(n - |xs|, fill)
  }

  /** The smallest index of a non-empty run. */
  function SeqMin(xs: seq<uint32>): (m: uint32)
    requires xs != []
    ensures m in xs && forall i :: 0 <= i < |xs| ==> m <= xs[i]
  {
    if |xs| == 1 then xs[0]
    else
      var m := SeqMin(xs[..|xs| - 1]);
      assert forall i :: 0 <= i < |xs| - 1 ==> xs[..|xs| - 1][i] == xs[i];
      if xs[|xs| - 1] < m then xs[|xs| - 1] else m
  }

  /** The largest index of a non-empty run. */
  function SeqMax(xs: seq<uint32>): (m: uint32)
    requires xs != []
    ensures m in xs && forall i :: 0 <= i < |xs| ==> xs[i] <= m
  {
    if |xs| == 1 then xs[0]
    else
      var m := SeqMax(xs[..|xs| - 1]);
      assert forall i :: 0 <= i < |xs| - 1 ==> xs[..|xs| - 1][i] == xs[i];
      if xs[|xs| - 1] > m then xs[|xs| - 1] else m
  }

  /** The scan behind std::minmax_element. */
  method MinMax(xs: seq<uint32>) returns (lo: uint32, hi: uint32)
    requires xs != []
    ensures lo == SeqMin(xs) && hi == SeqMax(xs)
  {
    lo, hi := xs[0], xs[0];
    var i := 1;
    while i < |xs|
      invariant 1 <= i <= |xs|
      invariant lo == SeqMin(xs[..i]) && hi == SeqMax(xs[..i])
    {
      ghost var next := xs[..i + 1];
      assert next[..i] == xs[..i] && next[i] == xs[i];
      if xs[i] < lo {
        lo := xs[i];
      }
      if xs[i] > hi {
        hi := xs[i];
      }
      i := i + 1;
    }
    assert xs[..i] == xs;
  }

  /**
   * The bytes the in-place branch of upload writes, as written: the call
   * passes the view offset where BufferObject::upload takes the byte count,
   * so the first `offset` bytes of the index data land at byte 0. (Reading
   * past the index data is undefined in the source; only existing bytes are
   * taken here.)
   */
  function InPlaceUploadAsWritten(bytes: seq<byte>, data: seq<byte>, offset: nat): (r: seq<byte>)
    ensures |r| == |bytes|
    ensures forall i :: Min(offset, |data|) <= i < |bytes| ==> r[i] == bytes[i]
  {
    var n := Min(offset, |data|);
    if n <= |bytes| then Splice(bytes, 0, data[..n]) else bytes
  }

  /** The evidently intended in-place upload: the view's bytes written at the view's offset. */
  function InPlaceUpload(bytes: seq<byte>, data: seq<byte>, offset: nat): (r: seq<byte>)
    requires offset + |data| <= |bytes|
    ensures |r| == |bytes| && r[offset..offset + |data|] == data
  {
    var r := Splice(bytes, offset, data);
    assert r[offset..offset + |data|] == data;
    r
  }

  /**
   * The as-written in-place upload at the default view offset 0 writes
   * nothing, so a changed index array never reaches a buffer that was large
   * enough; the intended write replaces the view's bytes.
   */
  lemma InPlaceUploadAtOffsetZeroWritesNothing(bytes: seq<byte>, xs: seq<uint32>)
    requires xs != [] && 4 * |xs| <= |bytes|
    ensures InPlaceUploadAsWritten(bytes, EncodeIndices(xs), 0) == bytes
    ensures DecodeIndices(InPlaceUpload(bytes, EncodeIndices(xs), 0)[..4 * |xs|]) == xs
  {
    SpliceNothing(bytes, EncodeIndices(xs));
    var e := EncodeIndices(xs);
    var n := 4 * |xs|;
    InPlaceUploadRoundTrip(bytes, xs, 0, |xs|);
    TakeAll(e);
    var r := InPlaceUpload(bytes, e, 0);
    assert r == InPlaceUpload(bytes, e[..n], 0);
    assert r[..n] == r[0..0 + n];
    assert DecodeIndices(r[..n]) == xs[..|xs|];
    assert xs[..|xs|] == xs;
  }

  lemma TakeAll<T>(s: seq<T>)
    ensures s[..|s|] == s
  {
  }

  lemma SpliceNothing(bytes: seq<byte>, data: seq<byte>)
    ensures InPlaceUploadAsWritten(bytes, data, 0) == bytes
  {
    assert data[..0] == [];
    assert Splice(bytes, 0, []) == bytes;
  }

  /** After the intended upload, reading the view's elements back gives the uploaded indices. */
  lemma InPlaceUploadRoundTrip(bytes: seq<byte>, xs: seq<uint32>, offset: nat, count: nat)
    requires count <= |xs| && offset + 4 * count <= |bytes|
    ensures DecodeIndices(InPlaceUpload(bytes, EncodeIndices(xs)[..4 * count], offset)[offset..offset + 4 * count]) == xs[..count]
  {
    DecodeEncodePrefix(xs, count);
  }

  // ---------------------------------------------------------------------------
  // The index data

  class MeshIndexData {
    /** The BufferView part of the object. */
    const view: BufferView
    /** indexArray, the local copy of the indices. */
    var indices: seq<uint32>
    var minIndex: uint32
    var maxIndex: uint32
    var dataChanged: bool

    ghost predicate Valid()
      reads this, view
    {
      view.elementSize == INDEX_SIZE
    }

    /** A view of four-byte elements with no buffer, no indices and a zero range. */
    constructor()
      ensures Valid() && fresh(view)
      ensures view.buffer == null && view.offset == 0 && view.elementCount == 0
      ensures indices == [] && minIndex == 0 && maxIndex == 0 && !dataChanged
    {
      view := new BufferView(null, 0, INDEX_SIZE, 0);
      indices := [];
      minIndex, maxIndex := 0, 0;
      dataChanged := false;
    }

    /**
     * The copy constructor: a new view on the same buffer object as
     * `other`'s (shared, not duplicated), the same index range, marked as
     * changed. The local indices are copied when `other` holds any, else
     * read back from `other`'s valid view; with neither, the source only
     * warns and the copy has no indices.
     */
    constructor Copy(other: MeshIndexData)
      requires other.Valid()
      ensures Valid() && fresh(view)
      ensures view.buffer == other.view.buffer && view.offset == other.view.offset
      ensures view.elementCount == other.view.elementCount
      ensures minIndex == other.minIndex && maxIndex == other.maxIndex && dataChanged
      ensures other.indices != [] ==> indices == other.indices
      ensures other.indices == [] && other.view.IsValid() ==>
        (other.view.offset + other.view.Size() <= |other.view.buffer.bytes|
        && |indices| == other.view.elementCount as nat
        && indices == DecodeIndices(other.view.buffer.bytes[other.view.offset..other.view.offset + other.view.Size()]))
      ensures other.indices == [] && !other.view.IsValid() ==> indices == []
    {
      view := new BufferView.Copy(other.view);
      minIndex, maxIndex := other.minIndex, other.maxIndex;
      dataChanged := true;
      if other.indices != [] {
        indices := other.indices;
      } else if other.view.IsValid() {
        var bytes := other.view.GetValues(0, other.view.elementCount);
        indices := DecodeIndices(bytes.value);
      } else {
        indices := [];
      }
    }

    /** releaseLocalData: drop the local indices. */
    method ReleaseLocalData()
      modifies this`indices
      ensures indices == []
    {
      indices := [];
    }

    /** swap: exchange everything, view included, with `other`; a self-swap does nothing. */
    method Swap(other: MeshIndexData)
      requires Valid() && other.Valid()
      modifies this, other, view, other.view
      ensures Valid() && other.Valid()
      ensures indices == old(other.indices) && other.indices == old(indices)
      ensures minIndex == old(other.minIndex) && other.minIndex == old(minIndex)
      ensures maxIndex == old(other.maxIndex) && other.maxIndex == old(maxIndex)
      ensures dataChanged == old(other.dataChanged) && other.dataChanged == old(dataChanged)
      ensures view.buffer == old(other.view.buffer) && other.view.buffer == old(view.buffer)
      ensures view.offset == old(other.view.offset) && other.view.offset == old(view.offset)
      ensures view.elementCount == old(other.view.elementCount) && other.view.elementCount == old(view.elementCount)
    {
      if this == other {
        return;
      }
      view.Swap(other.view);
      minIndex, other.minIndex := other.minIndex, minIndex;
      maxIndex, other.maxIndex := other.maxIndex, maxIndex;
      dataChanged, other.dataChanged := other.dataChanged, dataChanged;
      indices, other.indices := other.indices, indices;
    }

    /**
     * allocate: the view gets `count` elements and the local array is
     * resized to `count`, new entries holding the largest uint32_t; the data
     * is marked as changed.
     */
    method Allocate(count: uint32)
      requires Valid()
      modifies this`indices, this`dataChanged, view
      ensures Valid() && dataChanged
      ensures view.elementCount == count && view.buffer == old(view.buffer) && view.offset == old(view.offset)
      ensures indices == Resized(old(indices), count as nat, UINT32_MAX)
    {
      view.elementCount := count;
      indices := Resized(indices, count as nat, UINT32_MAX);
      dataChanged := true;
    }

    /** updateIndexRange: the exact range of the indices, or the empty range 1..0 without indices. */
    method UpdateIndexRange()
      modifies this`minIndex, this`maxIndex
      ensures indices == [] ==> minIndex == 1 && maxIndex == 0
      ensures indices != [] ==> minIndex in indices && maxIndex in indices
      ensures forall i :: 0 <= i < |indices| ==> minIndex <= indices[i] <= maxIndex
    {
      if indices == [] {
        minIndex, maxIndex := 1, 0;
      } else {
        minIndex, maxIndex := MinMax(indices);
      }
    }

    /**
     * upload: refused (false) without elements or without local indices.
     * Otherwise a view that is invalid, or whose buffer is smaller than its
     * data by the source's test, gets a fresh buffer filled with its
     * elements' bytes; else the existing buffer is written in place, as
     * written (see `InPlaceUploadAsWritten`). A device error (`deviceError`)
     * drops the buffer and reports false; success clears the changed flag.
     * The buffer usage flags are not modelled.
     */
    method Upload(deviceError: bool) returns (ok: bool)
      requires Valid()
      requires indices != [] ==> view.elementCount as nat <= |indices|
      modifies this`dataChanged, view, view.buffer
      ensures Valid()
      ensures ok <==> old(view.elementCount) != 0 && old(indices) != [] && !deviceError
      ensures ok ==> !dataChanged
      ensures !ok ==> dataChanged == old(dataChanged)
      ensures view.offset == old(view.offset) && view.elementCount == old(view.elementCount)
      ensures old(view.elementCount) != 0 && old(indices) != [] && deviceError ==> view.buffer == null
      ensures ok && old(!view.IsValid() || view.offset + |view.buffer.bytes| < view.Size()) ==>
        (view.buffer != null && view.buffer.valid && view.buffer.bytes == EncodeIndices(indices)[..view.Size()])
      ensures ok && old(view.IsValid() && view.offset + |view.buffer.bytes| >= view.Size()) ==>
        (view.buffer == old(view.buffer) && view.buffer.valid
        && view.buffer.bytes == InPlaceUploadAsWritten(old(view.buffer.bytes), EncodeIndices(indices), view.offset))
    {
      if view.elementCount == 0 || indices == [] {
        return false;
      }
      var data := EncodeIndices(indices);
      if !view.IsValid() || view.offset + |view.buffer.bytes| < view.Size() {
        view.buffer := null;
        view.AllocateBuffer(Some(data[..view.Size()]));
      } else {
        var n := Min(view.offset, |data|);
        if n <= |view.buffer.bytes| {
          view.buffer.Upload(data[..n], 0);
        }
      }
      if deviceError {
        view.buffer := null;
        return false;
      }
      dataChanged := false;
      ok := true;
    }

    /**
     * download: refused (false) for an invalid view or one without elements;
     * otherwise the view's elements are read back into the local indices and
     * the changed flag is cleared.
     */
    method Download() returns (ok: bool)
      requires Valid()
      modifies this`indices, this`dataChanged
      ensures ok <==> view.IsValid() && view.elementCount != 0
      ensures !ok ==> indices == old(indices) && dataChanged == old(dataChanged)
      ensures ok ==> (!dataChanged && |indices| == view.elementCount as nat
        && view.offset + view.Size() <= |view.buffer.bytes|
        && indices == DecodeIndices(view.buffer.bytes[view.offset..view.offset + view.Size()]))
    {
      if !view.IsValid() || view.elementCount == 0 {
        return false;
      }
      var bytes := view.GetValues(0, view.elementCount);
      indices := DecodeIndices(bytes.value);
      dataChanged := false;
      ok := true;
    }
  }
}
