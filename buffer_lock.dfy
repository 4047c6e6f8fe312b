/**
 * Fence-guarded byte ranges of a buffer (Memory/BufferLock.h, BufferLock.cpp).
 *
 * A BufferLockManager remembers the ranges that the GPU may still be reading.
 * Before the CPU writes a range it waits for, and forgets, every remembered
 * range that overlaps it. The GL fence objects themselves are not modelled:
 * a lock is its byte range, and waiting on a fence is reported by returning
 * the ranges whose fences were waited for.
 */
module BufferLocks {

  /** A half-open byte range [start, start + length). */
  datatype BufferRange = BufferRange(start: nat, length: nat)

  /** Byte position `k` lies inside `r`. */
  predicate Holds(r: BufferRange, k: int)
  {
    r.start <= k < r.start + r.length
  }

  /** BufferRange::overlaps. */
  predicate Overlaps(a: BufferRange, b: BufferRange)
  {
    a.start < b.start + b.length && b.start < a.start + a.length
  }

  /**
   * For non-empty ranges the overlap test means "the two ranges share a byte";
   * it is symmetric. (An empty range strictly inside another one does pass
   * the test, which is why waitForLockedRange returns early on length 0 and
   * lockRange never stores an empty range.)
   */
  lemma OverlapsIffSharedByte(a: BufferRange, b: BufferRange)
    requires a.length > 0 && b.length > 0
    ensures Overlaps(a, b) <==> exists k :: Holds(a, k) && Holds(b, k)
    ensures Overlaps(a, b) == Overlaps(b, a)
  {
    if Overlaps(a, b) {
      var k := if a.start <= b.start then b.start else a.start;
      assert Holds(a, k) && Holds(b, k);
    }
  }

  /**
   * An empty range holds no byte, yet it passes the overlap test exactly
   * when its start lies strictly inside the other range.
   */
  lemma EmptyRangeOverlapsStrictInterior(a: BufferRange, b: BufferRange)
    requires a.length == 0
    ensures forall k :: !Holds(a, k)
    ensures Overlaps(a, b) <==> b.start < a.start < b.start + b.length
  {
  }

  /** The locks that survive a wait for `r`, in their original order. */
  function Kept(locks: seq<BufferRange>, r: BufferRange): (k: seq<BufferRange>)
    ensures |k| <= |locks|
    ensures forall x :: x in k <==> x in locks && !Overlaps(r, x)
  {
    if locks == [] then []
    else
      var last := locks[|locks| - 1];
      Kept(locks[..|locks| - 1], r) + (if Overlaps(r, last) then [] else [last])
  }

  /** The locks a wait for `r` has to wait for, in their original order. */
  function Waited(locks: seq<BufferRange>, r: BufferRange): (w: seq<BufferRange>)
    ensures |w| <= |locks|
    ensures forall x :: x in w <==> x in locks && Overlaps(r, x)
  {
    if locks == [] then []
    else
      var last := locks[|locks| - 1];
      Waited(locks[..|locks| - 1], r) + (if Overlaps(r, last) then [last] else [])
  }

  /** A wait splits the locks: every lock is either waited for or kept, never both, never lost. */
  lemma {:induction false} WaitPartitionsLocks(locks: seq<BufferRange>, r: BufferRange)
    ensures multiset(Kept(locks, r)) + multiset(Waited(locks, r)) == multiset(locks)
    ensures |Kept(locks, r)| + |Waited(locks, r)| == |locks|
  {
    if locks != [] {
      var init := locks[..|locks| - 1];
      var last := locks[|locks| - 1];
      WaitPartitionsLocks(init, r);
      assert locks == init + [last];
      assert multiset(locks) == multiset(init) + multiset{last};
      if Overlaps(r, last) {
        assert Waited(locks, r) == Waited(init, r) + [last];
        assert Kept(locks, r) == Kept(init, r);
      } else {
        assert Kept(locks, r) == Kept(init, r) + [last];
        assert Waited(locks, r) == Waited(init, r);
      }
    }
  }

  class BufferLockManager {
    /** BufferLockManager::bufferLocks, oldest first. */
    var locks: seq<BufferRange>

    constructor()
      ensures locks == []
    {
      locks := [];
    }

    /** lockRange: remember a non-empty range behind a new fence. */
    method LockRange(start: nat, length: nat)
      modifies this
      ensures locks == if length > 0 then old(locks) + [BufferRange(start, length)] else old(locks)
    {
      if length > 0 {
        locks := locks + [BufferRange(start, length)];
      }
    }

    /**
     * waitForLockedRange: wait for every lock overlapping [start, start + length)
     * and forget it; the other locks stay, in order. `waited` lists the locks
     * whose fences were waited for.
     */
    method WaitForLockedRange(start: nat, length: nat) returns (waited: seq<BufferRange>)
      modifies this
      ensures length == 0 ==> locks == old(locks) && waited == []
      ensures length > 0 ==> locks == Kept(old(locks), BufferRange(start, length))
      ensures length > 0 ==> waited == Waited(old(locks), BufferRange(start, length))
    {
      waited := [];
      if length == 0 {
        return;
      }
      var testRange := BufferRange(start, length);
      var swapLocks: seq<BufferRange> := [];
      var i := 0;
      while i < |locks|
        invariant 0 <= i <= |locks|
        invariant swapLocks == Kept(locks[..i], testRange)
        invariant waited == Waited(locks[..i], testRange)
      {
        var lock := locks[i];
        assert locks[..i + 1][..i] == locks[..i];
        if Overlaps(testRange, lock) {
          waited := waited + [lock];
        } else {
          swapLocks := swapLocks + [lock];
        }
        i := i + 1;
      }
      assert locks[..i] == locks;
      locks := swapLocks;
    }
  }
}
