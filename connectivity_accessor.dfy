/**
 * Corner/vertex/triangle connectivity of an indexed triangle mesh.
 *
 * A corner is a position in the index list; corner c belongs to triangle
 * c / 3 and names vertex indices[c]. For every vertex the accessor keeps its
 * first corner, and for every corner the next corner of the same vertex;
 * the next-corner links of one vertex form a ring in index order.
 */
module ConnectivityAccessors {
  import opened Numeric

  /** The parts of a mesh the accessor looks at. */
  datatype DrawMode = DrawTriangles | OtherDrawMode(code: nat)

  datatype MeshInfo = MeshInfo(
    vertexCount: nat,
    usingIndexData: bool,
    drawMode: DrawMode,
    indices: seq<uint32>)

  /** Every index names an existing vertex. */
  predicate IndicesBelow(inds: seq<uint32>, vertexCount: nat) {
    forall k :: 0 <= k < |inds| ==> inds[k] < vertexCount
  }

  // ---------------------------------------------------------------------
  // Specification of the corner rings
  // ---------------------------------------------------------------------

  /** The first corner at or after `from` that names vertex `v`. */
  function NextOccurrence(inds: seq<uint32>, v: int, from: nat): (r: Option<nat>)
    ensures r.Some? ==> from <= r.value < |inds| && inds[r.value] == v
    ensures r.Some? ==> forall j :: from <= j < r.value ==> inds[j] != v
    ensures r.None? ==> forall j :: from <= j < |inds| ==> inds[j] != v
    decreases |inds| - from
  {
    if from >= |inds| then None
    else if inds[from] == v then Some(from)
    else NextOccurrence(inds, v, from + 1)
  }

  /** The first corner of vertex `v`, or UINT32_MAX when no corner names it. */
  function FirstCorner(inds: seq<uint32>, v: int): int
  {
    match NextOccurrence(inds, v, 0)
    case Some(c) => c
    case None => UINT32_MAX
  }

  /** The next corner of the same vertex; after the last one, the first one. */
  function NextCorner(inds: seq<uint32>, c: nat): (r: nat)
    requires c < |inds|
    ensures r < |inds| && inds[r] == inds[c]
    ensures r > c || r == FirstCorner(inds, inds[c])
  {
    match NextOccurrence(inds, inds[c], c + 1)
    case Some(d) => d
    case None =>
      assert NextOccurrence(inds, inds[c], 0).Some?;
      FirstCorner(inds, inds[c])
  }

  /** The corner reached from `c` after `m` steps around its ring. */
  function Iterate(inds: seq<uint32>, c: nat, m: nat): (r: nat)
    requires c < |inds|
    ensures r < |inds| && inds[r] == inds[c]
  {
    if m == 0 then c else NextCorner(inds, Iterate(inds, c, m - 1))
  }

  /** The number of corners of vertex `v` in `s`. */
  function Count(s: seq<uint32>, v: int): (n: nat)
    ensures n <= |s|
  {
    if s == [] then 0 else Count(s[..|s| - 1], v) + (if s[|s| - 1] == v then 1 else 0)
  }

  lemma CountStep(s: seq<uint32>, v: int, k: nat)
    requires k < |s|
    ensures Count(s[..k + 1], v) == Count(s[..k], v) + (if s[k] == v then 1 else 0)
  {
    assert s[..k + 1][..k] == s[..k];
  }

  /** No corner of `v` in [a, b) leaves the count unchanged. */
  lemma {:induction false} CountGap(s: seq<uint32>, v: int, a: nat, b: nat)
    requires a <= b <= |s|
    requires forall j :: a <= j < b ==> s[j] != v
    ensures Count(s[..b], v) == Count(s[..a], v)
    decreases b
  {
    if a < b {
      CountGap(s, v, a, b - 1);
      CountStep(s, v, b - 1);
    }
  }

  lemma {:induction false} CountMonotone(s: seq<uint32>, v: int, a: nat, b: nat)
    requires a <= b <= |s|
    ensures Count(s[..a], v) <= Count(s[..b], v)
    decreases b
  {
    if a < b {
      CountMonotone(s, v, a, b - 1);
      CountStep(s, v, b - 1);
    }
  }

  /** Two corners of the same vertex with equally many corners before them coincide. */
  lemma CountSeparates(s: seq<uint32>, v: int, j: nat, k: nat)
    requires j < |s| && k < |s| && s[j] == v && s[k] == v
    requires Count(s[..j], v) == Count(s[..k], v)
    ensures j == k
  {
    if j < k {
      CountStep(s, v, j);
      CountMonotone(s, v, j + 1, k);
    } else if k < j {
      CountStep(s, v, k);
      CountMonotone(s, v, k + 1, j);
    }
  }

  /** The count over the whole list is the count over its full prefix. */
  lemma CountWhole(s: seq<uint32>, v: int)
    ensures Count(s[..|s|], v) == Count(s, v)
  {
    assert s[..|s|] == s;
  }

  /** The last corner of a vertex has all other corners of it before it. */
  lemma LastCornerCounts(inds: seq<uint32>, v: int, c: nat)
    requires c < |inds| && inds[c] == v && NextOccurrence(inds, v, c + 1).None?
    ensures Count(inds[..c], v) + 1 == Count(inds, v)
  {
    CountWhole(inds, v);
    CountStep(inds, v, c);
    CountGap(inds, v, c + 1, |inds|);
  }

  /** A later corner of the same vertex has more corners before it. */
  lemma LaterCornerCounts(inds: seq<uint32>, v: int, c: nat, d: nat)
    requires c < d < |inds| && inds[c] == v && inds[d] == v
    ensures Count(inds[..c], v) + 2 <= Count(inds, v)
  {
    CountWhole(inds, v);
    CountStep(inds, v, c);
    CountMonotone(inds, v, c + 1, d);
    CountStep(inds, v, d);
    CountMonotone(inds, v, d + 1, |inds|);
  }

  /** The corners of a vertex in order, each one a successor of the previous. */
  lemma {:induction false} RingWalkCounts(inds: seq<uint32>, v: int, m: nat)
    requires NextOccurrence(inds, v, 0).Some?
    requires m < Count(inds, v)
    ensures Iterate(inds, FirstCorner(inds, v), m) < |inds|
    ensures inds[Iterate(inds, FirstCorner(inds, v), m)] == v
    ensures Count(inds[..Iterate(inds, FirstCorner(inds, v), m)], v) == m
  {
    var first := FirstCorner(inds, v);
    if m == 0 {
      CountGap(inds, v, 0, first);
    } else {
      RingWalkCounts(inds, v, m - 1);
      var c := Iterate(inds, first, m - 1);
      var next := NextOccurrence(inds, v, c + 1);
      if next.None? {
        LastCornerCounts(inds, v, c);
        assert false;
      }
      var d := next.value;
      assert Iterate(inds, first, m) == NextCorner(inds, c) == d;
      CountStep(inds, v, c);
      CountGap(inds, v, c + 1, d);
    }
  }

  /** A vertex that is used at all has a positive number of corners. */
  lemma RingHasCorners(inds: seq<uint32>, v: int)
    requires NextOccurrence(inds, v, 0).Some?
    ensures Count(inds, v) > 0
  {
    var first := FirstCorner(inds, v);
    CountWhole(inds, v);
    CountStep(inds, v, first);
    CountMonotone(inds, v, first + 1, |inds|);
  }

  /** The ring of a vertex closes after exactly as many steps as the vertex has corners. */
  lemma RingCloses(inds: seq<uint32>, v: int)
    requires NextOccurrence(inds, v, 0).Some?
    ensures Iterate(inds, FirstCorner(inds, v), Count(inds, v)) == FirstCorner(inds, v)
  {
    RingHasCorners(inds, v);
    RingClosesAfter(inds, v, Count(inds, v));
  }

  lemma RingClosesAfter(inds: seq<uint32>, v: int, n: nat)
    requires NextOccurrence(inds, v, 0).Some?
    requires n == Count(inds, v) > 0
    ensures Iterate(inds, FirstCorner(inds, v), n) == FirstCorner(inds, v)
  {
    var first := FirstCorner(inds, v);
    RingWalkCounts(inds, v, n - 1);
    var c := Iterate(inds, first, n - 1);
    var next := NextOccurrence(inds, v, c + 1);
    if next.Some? {
      LaterCornerCounts(inds, v, c, next.value);
      assert false;
    }
    assert inds[c] == v;
    assert NextCorner(inds, c) == FirstCorner(inds, v);
    assert Iterate(inds, first, n) == NextCorner(inds, c);
  }

  /** Every corner lies on the ring of its vertex that starts at the vertex's first corner. */
  lemma RingVisitsEveryCorner(inds: seq<uint32>, k: nat)
    requires k < |inds|
    ensures NextOccurrence(inds, inds[k], 0).Some?
    ensures Count(inds[..k], inds[k]) < Count(inds, inds[k])
    ensures Iterate(inds, FirstCorner(inds, inds[k]), Count(inds[..k], inds[k])) == k
  {
    var v := inds[k];
    var m := Count(inds[..k], v);
    CountWhole(inds, v);
    CountStep(inds, v, k);
    CountMonotone(inds, v, k + 1, |inds|);
    RingWalkCounts(inds, v, m);
    CountSeparates(inds, v, Iterate(inds, FirstCorner(inds, v), m), k);
  }

  // ---------------------------------------------------------------------
  // Building the rings (the constructor's loop)
  // ---------------------------------------------------------------------

  lemma {:induction false} NextOccurrenceSnoc(p: seq<uint32>, x: uint32, v: int, from: nat)
    requires from <= |p|
    ensures NextOccurrence(p + [x], v, from) ==
      if NextOccurrence(p, v, from).Some? then NextOccurrence(p, v, from)
      else if x == v then Some(|p|) else None
    decreases |p| - from
  {
    if from < |p| {
      NextOccurrenceSnoc(p, x, v, from + 1);
    }
  }

  /** Appending a corner of a vertex not seen before starts a ring of one corner. */
  lemma NewVertexStep(p: seq<uint32>, x: uint32)
    requires NextOccurrence(p, x, 0).None?
    ensures forall v :: FirstCorner(p + [x], v) == if v == x then |p| else FirstCorner(p, v)
    ensures forall k :: 0 <= k < |p| ==> NextCorner(p + [x], k) == NextCorner(p, k)
    ensures NextCorner(p + [x], |p|) == |p|
  {
    forall v ensures FirstCorner(p + [x], v) == if v == x then |p| else FirstCorner(p, v) {
      NextOccurrenceSnoc(p, x, v, 0);
    }
    forall k | 0 <= k < |p| ensures NextCorner(p + [x], k) == NextCorner(p, k) {
      NextOccurrenceSnoc(p, x, p[k], k + 1);
    }
  }

  /** Appending a further corner of a vertex links it after the vertex's last corner `j`. */
  lemma KnownVertexStep(p: seq<uint32>, x: uint32, j: nat)
    requires j < |p| && p[j] == x && NextOccurrence(p, x, j + 1).None?
    ensures forall v :: FirstCorner(p + [x], v) == FirstCorner(p, v)
    ensures forall k :: 0 <= k < |p| && k != j ==> NextCorner(p + [x], k) == NextCorner(p, k)
    ensures NextCorner(p + [x], j) == |p|
    ensures NextCorner(p + [x], |p|) == FirstCorner(p, x)
  {
    forall v ensures FirstCorner(p + [x], v) == FirstCorner(p, v) {
      NextOccurrenceSnoc(p, x, v, 0);
    }
    forall k | 0 <= k < |p| && k != j ensures NextCorner(p + [x], k) == NextCorner(p, k) {
      NextOccurrenceSnoc(p, x, p[k], k + 1);
    }
    NextOccurrenceSnoc(p, x, x, j + 1);
    NextOccurrenceSnoc(p, x, x, 0);
  }

  /**
   * The constructor's loop: for each corner in order, either the corner
   * starts its vertex's ring, or the ring is walked to its last corner and
   * the new corner is linked in between that one and the first.
   */
  method BuildConnectivity(inds: seq<uint32>, vertexCount: nat)
    returns (vertexCorners: seq<uint32>, nextCorners: seq<uint32>)
    requires |inds| <= UINT32_MAX
    requires IndicesBelow(inds, vertexCount)
    ensures |vertexCorners| == vertexCount && |nextCorners| == |inds|
    ensures forall v :: 0 <= v < vertexCount ==> vertexCorners[v] == FirstCorner(inds, v)
    ensures forall k :: 0 <= k < |inds| ==> nextCorners[k] == NextCorner(inds, k)
  {
    vertexCorners := Fill(vertexCount, UINT32_MAX);
    nextCorners := Fill(|inds|, UINT32_MAX);
    for i := 0 to |inds|
      invariant |vertexCorners| == vertexCount && |nextCorners| == |inds|
      invariant forall v :: 0 <= v < vertexCount ==> vertexCorners[v] == FirstCorner(inds[..i], v)
      invariant forall k :: 0 <= k < i ==> nextCorners[k] == NextCorner(inds[..i], k)
    {
      ghost var p := inds[..i];
      var x := inds[i];
      assert inds[..i + 1] == p + [x];
      var c := vertexCorners[x];
      if c == UINT32_MAX {
        NewVertexStep(p, x);
        vertexCorners := vertexCorners[x := i];
        nextCorners := nextCorners[i := i];
      } else {
        var j := WalkToLastCorner(nextCorners, inds, i, c);
        KnownVertexStep(p, x, j);
        nextCorners := nextCorners[j := i][i := c];
      }
    }
    assert inds[..|inds|] == inds;
  }

  /**
   * The inner loop of the constructor: follow the ring of corner `c` (the
   * first corner of its vertex among the first `i` corners) until the link
   * leads back to `c`; the corner reached is the vertex's last one so far.
   */
  method WalkToLastCorner(nextCorners: seq<uint32>, inds: seq<uint32>, i: nat, c: nat) returns (j: nat)
    requires c < i <= |inds| <= UINT32_MAX && |nextCorners| == |inds|
    requires FirstCorner(inds[..i], inds[c]) == c
    requires forall k :: 0 <= k < i ==> nextCorners[k] == NextCorner(inds[..i], k)
    ensures c <= j < i && inds[j] == inds[c]
    ensures NextOccurrence(inds[..i], inds[c], j + 1).None?
  {
    ghost var p := inds[..i];
    j := c;
    var nvc := nextCorners[j];
    while nvc != UINT32_MAX && nvc != c
      invariant c <= j < i && p[j] == p[c] && nvc == NextCorner(p, j)
      decreases i - j
    {
      j := nvc;
      nvc := nextCorners[j];
    }
  }

  // ---------------------------------------------------------------------
  // Range checks and triangle/corner arithmetic
  // ---------------------------------------------------------------------

  /** assertTriangleRange as written: `tIndex*3` is computed in uint32_t. */
  predicate TriangleInRangeAsWritten(t: uint32, indexCount: nat)
    ensures t * 3 < TWO_32 ==> (TriangleInRangeAsWritten(t, indexCount) <==> TriangleInRange(t, indexCount))
  {
    (t * 3) % TWO_32 < indexCount
  }

  /** The triangle range check without the wrap-around. */
  predicate TriangleInRange(t: uint32, indexCount: nat) {
    t * 3 < indexCount
  }

  /** A huge triangle number passes the written check on six indices. */
  lemma TriangleRangeWrapAccepts()
    ensures TriangleInRangeAsWritten(0x5555_5556, 6)
    ensures !TriangleInRange(0x5555_5556, 6)
    ensures (0x5555_5556 * 3) % TWO_32 == 2
  {
  }

  /** The corrected check accepts exactly the triangles whose three corners exist. */
  lemma TriangleInRangeMeansCornersExist(t: uint32, indexCount: nat)
    requires indexCount % 3 == 0
    ensures TriangleInRange(t, indexCount) <==> t < indexCount / 3
    ensures TriangleInRange(t, indexCount) ==> 3 * t + 2 < indexCount
  {
  }

  /** getNextTriangleCorner as written: the triangle number is added, not its first corner. */
  function NextTriangleCornerAsWritten(c: nat): (r: nat)
    ensures c < 3 ==> r == NextTriangleCorner(c)
  {
    c / 3 + (c + 1) % 3
  }

  /** Corner 3 (the first of triangle 1) is mapped to corner 2, of triangle 0. */
  lemma NextTriangleCornerAsWrittenLeavesTriangle()
    ensures NextTriangleCornerAsWritten(3) == 2
    ensures NextTriangleCornerAsWritten(3) / 3 != 3 / 3
  {
  }

  /** The next corner within the same triangle, cyclically. */
  function NextTriangleCorner(c: nat): (r: nat)
    ensures r / 3 == c / 3 && r != c
    ensures r % 3 == (c + 1) % 3
  {
    3 * (c / 3) + (c + 1) % 3
  }

  /** Three steps around a triangle come back to the starting corner. */
  lemma NextTriangleCornerCycles(c: nat)
    ensures NextTriangleCorner(NextTriangleCorner(NextTriangleCorner(c))) == c
    ensures NextTriangleCorner(NextTriangleCorner(c)) != c
  {
    var r1 := NextTriangleCorner(c);
    var r2 := NextTriangleCorner(r1);
    var r3 := NextTriangleCorner(r2);
    assert r3 / 3 == c / 3 && r3 % 3 == c % 3;
    assert c == 3 * (c / 3) + c % 3;
  }

  // ---------------------------------------------------------------------
  // getCorner
  // ---------------------------------------------------------------------

  /**
   * The loop of getCorner as written keeps walking while the corner is not
   * UINT32_MAX and not in triangle `t`: for a vertex that has corners but
   * none in `t`, every corner of the ring keeps the loop going.
   */
  lemma GetCornerAsWrittenNeverExits(inds: seq<uint32>, v: int, t: nat, m: nat)
    requires |inds| <= UINT32_MAX
    requires NextOccurrence(inds, v, 0).Some?
    requires forall k :: 0 <= k < |inds| && inds[k] == v ==> k / 3 != t
    ensures Iterate(inds, FirstCorner(inds, v), m) != UINT32_MAX
    ensures Iterate(inds, FirstCorner(inds, v), m) / 3 != t
  {
    var c := Iterate(inds, FirstCorner(inds, v), m);
    assert inds[c] == v;
  }

  /** A concrete instance: vertex 0 of two disjoint triangles, asked for triangle 1. */
  lemma GetCornerAsWrittenLoopsOnExample()
    ensures NextCorner([0, 1, 2, 3, 4, 5], 0) == 0
    ensures FirstCorner([0, 1, 2, 3, 4, 5], 0) == 0
    ensures 0 / 3 != 1 && TriangleInRange(1, 6)
  {
    var s: seq<uint32> := [0, 1, 2, 3, 4, 5];
    assert NextOccurrence(s, 0, 1).None?;
  }

  // ---------------------------------------------------------------------
  // The accessor
  // ---------------------------------------------------------------------

  class ConnectivityAccessor {
    const indices: seq<uint32>
    const vertexCorners: seq<uint32>
    const triangleNextCorners: seq<uint32>

    /** The tables hold the first corner of each vertex and the ring successor of each corner. */
    ghost predicate Valid() {
      |indices| <= UINT32_MAX
      && IndicesBelow(indices, |vertexCorners|)
      && |triangleNextCorners| == |indices|
      && (forall v :: 0 <= v < |vertexCorners| ==> vertexCorners[v] == FirstCorner(indices, v))
      && (forall k :: 0 <= k < |indices| ==> triangleNextCorners[k] == NextCorner(indices, k))
    }

    constructor(inds: seq<uint32>, vertexCount: nat)
      requires |inds| <= UINT32_MAX
      requires IndicesBelow(inds, vertexCount)
      ensures Valid()
      ensures indices == inds && |vertexCorners| == vertexCount
    {
      var vc, nc := BuildConnectivity(inds, vertexCount);
      indices := inds;
      vertexCorners := vc;
      triangleNextCorners := nc;
    }

    /** getVertexCorner: the first corner of a vertex, UINT32_MAX for an unused vertex. */
    function GetVertexCorner(v: uint32): (r: Result<uint32>)
      requires Valid()
      ensures r.Err? <==> v >= |vertexCorners|
      ensures r.Err? ==> r.error == InvalidArgument
      ensures r.Ok? && r.value == UINT32_MAX ==> forall k :: 0 <= k < |indices| ==> indices[k] != v
      ensures r.Ok? && r.value != UINT32_MAX ==>
        r.value < |indices| && indices[r.value] == v && forall k :: 0 <= k < r.value ==> indices[k] != v
    {
      if v >= |vertexCorners| then Err(InvalidArgument) else Ok(vertexCorners[v])
    }

    /** getTriangleCorner: the first corner of a triangle. */
    function GetTriangleCorner(t: uint32): (r: Result<uint32>)
      requires Valid()
      ensures r.Err? <==> !TriangleInRange(t, |indices|)
      ensures r.Err? ==> r.error == InvalidArgument
      ensures r.Ok? ==> r.value < |indices| && r.value / 3 == t && r.value % 3 == 0
    {
      if !TriangleInRange(t, |indices|) then Err(InvalidArgument) else Ok(t * 3)
    }

    /** getCornerVertex: the vertex a corner names. */
    function GetCornerVertex(c: uint32): (r: Result<uint32>)
      requires Valid()
      ensures r.Err? <==> c >= |indices|
      ensures r.Err? ==> r.error == InvalidArgument
      ensures r.Ok? ==> c < |indices| && r.value == indices[c] && r.value < |vertexCorners|
    {
      if c >= |indices| then Err(InvalidArgument) else Ok(indices[c])
    }

    /** getCornerTriangle: the triangle a corner belongs to. */
    function GetCornerTriangle(c: uint32): (r: Result<uint32>)
      requires Valid()
      ensures r.Err? <==> c >= |indices|
      ensures r.Err? ==> r.error == InvalidArgument
      ensures r.Ok? ==> 3 * r.value <= c < 3 * r.value + 3
    {
      if c >= |indices| then Err(InvalidArgument) else Ok(c / 3)
    }

    /** getNextVertexCorner: the ring successor of a corner. */
    function GetNextVertexCorner(c: uint32): (r: Result<uint32>)
      requires Valid()
      ensures r.Err? <==> c >= |indices|
      ensures r.Err? ==> r.error == InvalidArgument
      ensures r.Ok? ==> r.value < |indices| && indices[r.value] == indices[c]
      ensures r.Ok? ==> r.value > c || r.value == vertexCorners[indices[c]]
    {
      if c >= |indices| then Err(InvalidArgument) else Ok(triangleNextCorners[c])
    }

    /** getNextTriangleCorner, with the first corner of the triangle as the base. */
    function GetNextTriangleCorner(c: uint32): (r: Result<uint32>)
      requires Valid()
      ensures r.Err? <==> c >= |indices|
      ensures r.Err? ==> r.error == InvalidArgument
      ensures r.Ok? ==> r.value / 3 == c / 3 && r.value != c
    {
      if c >= |indices| then Err(InvalidArgument)
      else
        assert NextTriangleCorner(c) <= c + 2 && 3 * (c / 3) + 2 < TWO_32;
        Ok(NextTriangleCorner(c))
    }

    /**
     * getCorner: the corner at which vertex `v` is used by triangle `t`,
     * found by walking the vertex's ring. The walk stops after one lap and
     * then answers UINT32_MAX, as it does for a vertex without corners.
     */
    method GetCorner(v: uint32, t: uint32) returns (r: Result<uint32>)
      requires Valid()
      ensures r.Err? <==> v >= |vertexCorners| || !TriangleInRange(t, |indices|)
      ensures r.Err? ==> r.error == InvalidArgument
      ensures r.Ok? && r.value != UINT32_MAX ==>
        r.value < |indices| && indices[r.value] == v && r.value / 3 == t
      ensures r.Ok? && r.value == UINT32_MAX ==>
        forall k :: 0 <= k < |indices| && indices[k] == v ==> k / 3 != t
    {
      if v >= |vertexCorners| || !TriangleInRange(t, |indices|) {
        return Err(InvalidArgument);
      }
      var c := vertexCorners[v];
      if c == UINT32_MAX {
        return Ok(c);
      }
      var lap := Count(indices, v);
      var steps := 0;
      while c / 3 != t && steps < lap
        invariant steps <= lap
        invariant c == Iterate(indices, FirstCorner(indices, v), steps)
        invariant forall m :: 0 <= m < steps ==> Iterate(indices, FirstCorner(indices, v), m) / 3 != t
        decreases lap - steps
      {
        c := triangleNextCorners[c];
        steps := steps + 1;
      }
      if c / 3 == t {
        return Ok(c);
      }
      forall k | 0 <= k < |indices| && indices[k] == v
        ensures k / 3 != t
      {
        RingVisitsEveryCorner(indices, k);
      }
      return Ok(UINT32_MAX);
    }
  }

  /** Triangle and corner numbering are inverse to each other. */
  lemma CornerTriangleRoundTrip(a: ConnectivityAccessor, t: uint32)
    requires a.Valid() && a.GetTriangleCorner(t).Ok?
    ensures a.GetCornerTriangle(a.GetTriangleCorner(t).value) == Ok(t)
  {
  }

  /** The first corner of the vertex a corner names is that corner or an earlier one of the same vertex. */
  lemma VertexCornerOfCornerVertex(a: ConnectivityAccessor, c: uint32)
    requires a.Valid() && c < |a.indices|
    ensures a.GetVertexCorner(a.GetCornerVertex(c).value).Ok?
    ensures a.GetVertexCorner(a.GetCornerVertex(c).value).value <= c
    ensures a.indices[a.GetVertexCorner(a.GetCornerVertex(c).value).value] == a.indices[c]
  {
  }

  /**
   * Following getNextVertexCorner from getVertexCorner visits every corner
   * of the vertex and is back at the start after as many steps as the
   * vertex has corners.
   */
  lemma NextVertexCornerRing(a: ConnectivityAccessor, c: uint32)
    requires a.Valid() && c < |a.indices|
    ensures Iterate(a.indices, a.vertexCorners[a.indices[c]], Count(a.indices[..c], a.indices[c])) == c
    ensures Iterate(a.indices, a.vertexCorners[a.indices[c]], Count(a.indices, a.indices[c]))
      == a.vertexCorners[a.indices[c]]
  {
    RingVisitsEveryCorner(a.indices, c);
    RingCloses(a.indices, a.indices[c]);
  }

  /** create: only an indexed triangle mesh gets an accessor. */
  method Create(mesh: MeshInfo) returns (r: Result<ConnectivityAccessor>)
    requires |mesh.indices| <= UINT32_MAX
    requires IndicesBelow(mesh.indices, mesh.vertexCount)
    ensures r.Err? <==> !(mesh.usingIndexData && mesh.drawMode == DrawTriangles)
    ensures r.Err? ==> r.error == InvalidArgument
    ensures r.Ok? ==>
      fresh(r.value) && r.value.Valid() && r.value.indices == mesh.indices && |r.value.vertexCorners| == mesh.vertexCount
  {
    if mesh.usingIndexData && mesh.drawMode == DrawTriangles {
      var a := new ConnectivityAccessor(mesh.indices, mesh.vertexCount);
      return Ok(a);
    }
    return Err(InvalidArgument);
  }
}
