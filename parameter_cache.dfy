/**
 * Named, fixed-capacity arrays of shader parameter records kept in buffer
 * objects (RenderingContext/ParameterCache.cpp).
 *
 * A cache entry has room for `maxElementCount` records of `elementSize`
 * bytes and a `head` counter used by addParameter. Each record slot is
 * modelled as a whole value: `None` for a slot never written since its
 * storage was allocated, `Some(rec)` once record `rec` has been uploaded
 * there. Looking up an unknown cache name throws std::out_of_range
 * (`caches.at`), modelled as `Err(OutOfRange)`.
 */
module ParameterCaches {
  import opened Numeric

  /** ParameterCache::INVALID_INDEX. */
  const INVALID_INDEX: uint32 := UINT32_MAX

  type CacheId = string

  datatype CacheEntry<R> = CacheEntry(
    elementSize: uint32,
    maxElementCount: uint32,
    head: uint32,
    usageFlags: uint32,
    records: seq<Option<R>>)

  /** The buffer of an entry always holds exactly maxElementCount record slots. */
  predicate EntryValid<R>(e: CacheEntry<R>)
  {
    |e.records| == e.maxElementCount
  }

  /** The entry createCache makes: empty slots and head 0. */
  function NewEntry<R>(elementSize: uint32, maxElementCount: uint32, usageFlags: uint32): (e: CacheEntry<R>)
    ensures EntryValid(e) && e.head == 0
    ensures e.elementSize == elementSize && e.maxElementCount == maxElementCount && e.usageFlags == usageFlags
    ensures forall i :: 0 <= i < |e.records| ==> e.records[i].None?
  {
    CacheEntry(elementSize, maxElementCount, 0, usageFlags, Fill(maxElementCount, None))
  }

  /**
   * resizeCache on an existing entry: new storage of `n` slots that keeps
   * the first min(old, n) records; a resize to the same count does nothing.
   * The head is not touched.
   */
  function Resized<R>(e: CacheEntry<R>, n: uint32): (r: CacheEntry<R>)
    requires EntryValid(e)
    ensures EntryValid(r) && r.maxElementCount == n
    ensures r.head == e.head && r.elementSize == e.elementSize && r.usageFlags == e.usageFlags
    ensures forall i :: 0 <= i < Min(e.maxElementCount, n) ==> r.records[i] == e.records[i]
    ensures n != e.maxElementCount ==> forall i :: e.maxElementCount <= i < n ==> r.records[i].None?
  {
    if e.maxElementCount == n then e
    else
      var kept := Min(e.maxElementCount, n);
      e.(maxElementCount := n, records := e.records[..kept] + Fill(n - kept, None))
  }

  /** An upload of one record into slot `index`; the device refuses a slot past the end of the buffer. */
  function Stored<R>(e: CacheEntry<R>, index: nat, rec: R): (r: CacheEntry<R>)
    requires EntryValid(e)
    ensures EntryValid(r) && r.maxElementCount == e.maxElementCount && r.head == e.head
    ensures index < e.maxElementCount ==> r.records[index] == Some(rec)
    ensures forall i :: 0 <= i < |r.records| && i != index ==> r.records[i] == e.records[i]
  {
    if index < e.maxElementCount then e.(records := e.records[index := Some(rec)]) else e
  }

  /**
   * addParameter on an existing entry: the record goes into slot `head`,
   * which is returned, and the head advances (wrapping like a uint32_t).
   * When the head has reached the capacity, the cache either doubles its
   * capacity first (`autoResize`) or stores nothing and returns
   * INVALID_INDEX; the head advances in every case.
   */
  function Added<R>(e: CacheEntry<R>, rec: R, autoResize: bool): (r: (CacheEntry<R>, uint32))
    requires EntryValid(e)
    ensures EntryValid(r.0) && r.0.head == Inc32(e.head)
    ensures r.0.elementSize == e.elementSize && r.0.usageFlags == e.usageFlags
    ensures e.head < e.maxElementCount ==>
      r.1 == e.head && r.0.maxElementCount == e.maxElementCount && r.0.records == e.records[e.head := Some(rec)]
    ensures e.head >= e.maxElementCount && !autoResize ==>
      r.1 == INVALID_INDEX && r.0.maxElementCount == e.maxElementCount && r.0.records == e.records
    ensures e.head >= e.maxElementCount && autoResize ==>
      r.1 == e.head && r.0.maxElementCount == Trunc32(2 * e.maxElementCount)
  {
    var index := e.head;
    var advanced := e.(head := Inc32(e.head));
    if index >= e.maxElementCount then
      if autoResize then
        (Stored(Resized(advanced, Trunc32(2 * e.maxElementCount)), index, rec), index)
      else
        (advanced, INVALID_INDEX)
    else
      (Stored(advanced, index, rec), index)
  }

  /** A run of addParameter calls without auto-resizing: the final entry and the returned indices. */
  function AddedAll<R>(e: CacheEntry<R>, recs: seq<R>): (r: (CacheEntry<R>, seq<uint32>))
    requires EntryValid(e)
    ensures EntryValid(r.0) && |r.1| == |recs|
    decreases |recs|
  {
    if recs == [] then (e, [])
    else
      var step := Added(e, recs[0], false);
      var rest := AddedAll(step.0, recs[1..]);
      (rest.0, [step.1] + rest.1)
  }

  /**
   * While there is room, consecutive addParameter calls return consecutive
   * slots starting at the head, and each record lands in its slot; the other
   * slots and the capacity are untouched.
   */
  lemma {:induction false} AddsFillConsecutiveSlots<R>(e: CacheEntry<R>, recs: seq<R>)
    requires EntryValid(e) && e.head + |recs| <= e.maxElementCount
    ensures AddedAll(e, recs).0.head == e.head + |recs|
    ensures AddedAll(e, recs).0.maxElementCount == e.maxElementCount
    ensures forall k :: 0 <= k < |recs| ==> AddedAll(e, recs).1[k] == e.head + k
    ensures forall k :: 0 <= k < |recs| ==> AddedAll(e, recs).0.records[e.head + k] == Some(recs[k])
    ensures forall i :: 0 <= i < e.head || e.head + |recs| <= i < e.maxElementCount ==>
      AddedAll(e, recs).0.records[i] == e.records[i]
    decreases |recs|
  {
    if recs != [] {
      var step := Added(e, recs[0], false);
      AddsFillConsecutiveSlots(step.0, recs[1..]);
      var rest := AddedAll(step.0, recs[1..]);
      assert AddedAll(e, recs) == (rest.0, [step.1] + rest.1);
      forall k | 0 <= k < |recs|
        ensures AddedAll(e, recs).1[k] == e.head + k
        ensures AddedAll(e, recs).0.records[e.head + k] == Some(recs[k])
      {
        if k > 0 {
          assert recs[1..][k - 1] == recs[k];
        }
      }
    }
  }

  /**
   * Once the head has reached the capacity, further addParameter calls
   * without auto-resizing return INVALID_INDEX every time and store nothing,
   * though each still advances the head (here: before it wraps).
   */
  lemma {:induction false} AddsToFullCacheAreRejected<R>(e: CacheEntry<R>, recs: seq<R>)
    requires EntryValid(e) && e.head >= e.maxElementCount && e.head + |recs| < TWO_32
    ensures AddedAll(e, recs).0.head == e.head + |recs|
    ensures AddedAll(e, recs).0.records == e.records
    ensures forall k :: 0 <= k < |recs| ==> AddedAll(e, recs).1[k] == INVALID_INDEX
    decreases |recs|
  {
    if recs != [] {
      var step := Added(e, recs[0], false);
      AddsToFullCacheAreRejected(step.0, recs[1..]);
      var rest := AddedAll(step.0, recs[1..]);
      assert AddedAll(e, recs) == (rest.0, [step.1] + rest.1);
      forall k | 0 <= k < |recs|
        ensures AddedAll(e, recs).1[k] == INVALID_INDEX
      {
        if k > 0 {
          assert ([step.1] + rest.1)[k] == rest.1[k - 1];
        }
      }
    }
  }

  /** With auto-resizing, a record added to a full, non-empty cache of fewer than 2^31 slots lands at the head slot. */
  lemma AutoResizeStoresAtHead<R>(e: CacheEntry<R>, rec: R)
    requires EntryValid(e) && 0 < e.maxElementCount == e.head && 2 * e.maxElementCount < TWO_32
    ensures Added(e, rec, true).1 == e.head
    ensures Added(e, rec, true).0.maxElementCount == 2 * e.maxElementCount
    ensures Added(e, rec, true).0.records[e.head] == Some(rec)
    ensures forall i :: 0 <= i < e.maxElementCount ==> Added(e, rec, true).0.records[i] == e.records[i]
  {
  }

  /** A binding command for a cache's buffer. */
  datatype CacheBinding = CacheBinding(id: CacheId, target: uint32, location: uint32)

  class ParameterCache<R> {
    var caches: map<CacheId, CacheEntry<R>>

    ghost predicate Valid()
      reads this
    {
      forall id :: id in caches ==> EntryValid(caches[id])
    }

    constructor()
      ensures Valid() && caches == map[]
    {
      caches := map[];
    }

    /**
     * createCache: add an empty cache under a new name. An existing cache is
     * never replaced; a size or flags mismatch with it only warns.
     */
    method CreateCache(id: CacheId, elementSize: uint32, maxElementCount: uint32, usageFlags: uint32) returns (warning: bool)
      requires Valid()
      modifies this
      ensures Valid()
      ensures id !in old(caches) ==> caches == old(caches)[id := NewEntry(elementSize, maxElementCount, usageFlags)] && !warning
      ensures id in old(caches) ==> caches == old(caches)
      ensures id in old(caches) ==>
        (warning == (old(caches)[id].elementSize * old(caches)[id].maxElementCount != elementSize * maxElementCount
                     || old(caches)[id].usageFlags != usageFlags))
    {
      if id !in caches {
        caches := caches[id := NewEntry(elementSize, maxElementCount, usageFlags)];
        warning := false;
      } else {
        var e := caches[id];
        warning := e.elementSize * e.maxElementCount != elementSize * maxElementCount || e.usageFlags != usageFlags;
      }
    }

    /** deleteCache: forget the cache; unknown names are ignored. */
    method DeleteCache(id: CacheId)
      requires Valid()
      modifies this
      ensures Valid() && caches == old(caches) - {id}
    {
      caches := caches - {id};
    }

    /** resizeCache. */
    method ResizeCache(id: CacheId, n: uint32) returns (r: Result<()>)
      requires Valid()
      modifies this
      ensures Valid()
      ensures id !in old(caches) ==> r == Err(OutOfRange) && caches == old(caches)
      ensures id in old(caches) ==> r == Ok(()) && caches == old(caches)[id := Resized(old(caches)[id], n)]
    {
      if id !in caches {
        return Err(OutOfRange);
      }
      caches := caches[id := Resized(caches[id], n)];
      r := Ok(());
    }

    /** resetCache: restart addParameter at slot 0; the records stay. */
    method ResetCache(id: CacheId) returns (r: Result<()>)
      requires Valid()
      modifies this
      ensures Valid()
      ensures id !in old(caches) ==> r == Err(OutOfRange) && caches == old(caches)
      ensures id in old(caches) ==> r == Ok(()) && caches == old(caches)[id := old(caches)[id].(head := 0)]
    {
      if id !in caches {
        return Err(OutOfRange);
      }
      caches := caches[id := caches[id].(head := 0)];
      r := Ok(());
    }

    /** isCache. */
    method IsCache(id: CacheId) returns (b: bool)
      ensures b <==> id in caches
    {
      b := id in caches;
    }

    /** bind: bind the cache's buffer to `location` of `target`. */
    method Bind(id: CacheId, location: uint32, target: uint32) returns (r: Result<CacheBinding>)
      ensures id !in caches ==> r == Err(OutOfRange)
      ensures id in caches ==> r == Ok(CacheBinding(id, target, location))
    {
      if id !in caches {
        return Err(OutOfRange);
      }
      r := Ok(CacheBinding(id, target, location));
    }

    /** setParameter: store a record in slot `index`; an index past the capacity only warns (Ok(false)). */
    method SetParameter(id: CacheId, index: uint32, rec: R) returns (r: Result<bool>)
      requires Valid()
      modifies this
      ensures Valid()
      ensures id !in old(caches) ==> r == Err(OutOfRange) && caches == old(caches)
      ensures id in old(caches) && index >= old(caches)[id].maxElementCount ==> r == Ok(false) && caches == old(caches)
      ensures id in old(caches) && index < old(caches)[id].maxElementCount ==>
        r == Ok(true) && caches == old(caches)[id := old(caches)[id].(records := old(caches)[id].records[index := Some(rec)])]
    {
      if id !in caches {
        return Err(OutOfRange);
      }
      var e := caches[id];
      if index >= e.maxElementCount {
        return Ok(false);
      }
      caches := caches[id := Stored(e, index, rec)];
      r := Ok(true);
    }

    /** addParameter: see `Added`. */
    method AddParameter(id: CacheId, rec: R, autoResize: bool) returns (r: Result<uint32>)
      requires Valid()
      modifies this
      ensures Valid()
      ensures id !in old(caches) ==> r == Err(OutOfRange) && caches == old(caches)
      ensures id in old(caches) ==>
        r == Ok(Added(old(caches)[id], rec, autoResize).1) && caches == old(caches)[id := Added(old(caches)[id], rec, autoResize).0]
    {
      if id !in caches {
        return Err(OutOfRange);
      }
      var e := caches[id];
      var index := e.head;
      e := e.(head := Inc32(e.head));
      if index >= e.maxElementCount {
        if autoResize {
          e := Resized(e, Trunc32(2 * e.maxElementCount));
        } else {
          caches := caches[id := e];
          return Ok(INVALID_INDEX);
        }
      }
      e := Stored(e, index, rec);
      caches := caches[id := e];
      r := Ok(index);
    }
  }
}
