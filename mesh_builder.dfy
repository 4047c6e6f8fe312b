/**
 * The mesh builder of the mesh utilities.
 *
 * A builder collects finished vertices, the vertex being assembled, a list of
 * indices and an optional transformation. Its static factories build simple
 * shapes: some of them go through a builder, others write their index
 * pattern straight into a new mesh. Vertex attributes (positions, normals,
 * colours and texture coordinates) are floating point. They appear here only
 * as opaque vertex records. The index topology is modelled exactly, including
 * the source's uint32_t arithmetic.
 */
module MeshBuilders {
  import opened Numeric
  import MeshIndexDatas

  /** The bytes of one vertex, laid out by the builder's vertex description. */
  type VertexRecord = seq<byte>

  /** A 4x4 matrix, row by row. */
  type Matrix = seq<real>

  const IDENTITY: Matrix :=
    [1.0, 0.0, 0.0, 0.0,
     0.0, 1.0, 0.0, 0.0,
     0.0, 0.0, 1.0, 0.0,
     0.0, 0.0, 0.0, 1.0]

  /** `a + k` evaluated in uint32_t. */
  function Add32(a: uint32, k: nat): uint32
  {
    (a + k) % TWO_32
  }

  /** The index data of a built mesh: its indices and their range. */
  datatype IndexData = IndexData(indices: seq<uint32>, minIndex: uint32, maxIndex: uint32)

  /**
   * What buildMesh hands out: the vertex records in order and, unless the
   * mesh draws without indices, its index data.
   */
  datatype BuiltMesh = BuiltMesh(vertices: seq<VertexRecord>, indexData: Option<IndexData>)

  /**
   * A shape whose vertices are floating point: the vertex count the mesh is
   * created with, and its index data when it has indices.
   */
  datatype ShapeMesh = ShapeMesh(vertexCount: nat, indexData: Option<IndexData>)

  /**
   * The index data a mesh gets from a list of indices. An empty list switches
   * index data off. Otherwise the list is kept and its range is recorded.
   */
  function IndexDataOf(inds: seq<uint32>): (r: Option<IndexData>)
    ensures r.None? <==> inds == []
    ensures r.Some? ==> r.value.indices == inds
    ensures r.Some? ==> r.value.minIndex in inds && r.value.maxIndex in inds
    ensures r.Some? ==> forall i :: 0 <= i < |inds| ==> r.value.minIndex <= inds[i] <= r.value.maxIndex
  {
    if inds == [] then None
    else Some(IndexData(inds, MeshIndexDatas.SeqMin(inds), MeshIndexDatas.SeqMax(inds)))
  }

  /** Concatenation is associative. */
  lemma AppendAssoc<T>(a: seq<T>, b: seq<T>, c: seq<T>)
    ensures (a + b) + c == a + (b + c)
  {
  }

  /** A list that contains `lo` and `hi` and lies between them has exactly that range. */
  lemma RangeIs(xs: seq<uint32>, lo: uint32, hi: uint32)
    requires lo in xs && hi in xs
    requires forall i :: 0 <= i < |xs| ==> lo <= xs[i] <= hi
    ensures xs != [] && MeshIndexDatas.SeqMin(xs) == lo && MeshIndexDatas.SeqMax(xs) == hi
  {
    var m, n := MeshIndexDatas.SeqMin(xs), MeshIndexDatas.SeqMax(xs);
    var i :| 0 <= i < |xs| && xs[i] == lo;
    var j :| 0 <= j < |xs| && xs[j] == hi;
    assert m <= xs[i];
    assert xs[j] <= n;
  }

  // ---------------------------------------------------------------------------
  // Triangle lists

  /**
   * A list of whole triangles over the vertices below `vertexCount`, none of
   * them degenerate: every consecutive three indices name three different
   * vertices.
   */
  predicate TriangleList(xs: seq<uint32>, vertexCount: nat)
    decreases |xs|
  {
    if |xs| < 3 then xs == []
    else
      && xs[0] < vertexCount && xs[1] < vertexCount && xs[2] < vertexCount
      && xs[0] != xs[1] && xs[1] != xs[2] && xs[0] != xs[2]
      && TriangleList(xs[3..], vertexCount)
  }

  /** A triangle list is still one over a larger vertex count. */
  lemma {:induction false} WidenTriangles(xs: seq<uint32>, n: nat, m: nat)
    requires TriangleList(xs, n) && n <= m
    ensures TriangleList(xs, m)
    decreases |xs|
  {
    if xs != [] {
      WidenTriangles(xs[3..], n, m);
    }
  }

  /** Every index of a triangle list lies below its vertex count. */
  lemma {:induction false} TrianglesBelow(xs: seq<uint32>, n: nat)
    requires TriangleList(xs, n)
    ensures |xs| % 3 == 0
    ensures forall i :: 0 <= i < |xs| ==> xs[i] < n
    decreases |xs|
  {
    if xs != [] {
      TrianglesBelow(xs[3..], n);
      assert forall i :: 3 <= i < |xs| ==> xs[i] == xs[3..][i - 3];
    }
  }

  /** Triangle lists concatenate, and stay valid for a larger vertex count. */
  lemma {:induction false} AppendTriangles(a: seq<uint32>, b: seq<uint32>, n: nat, m: nat)
    requires TriangleList(a, n) && TriangleList(b, m) && n <= m
    ensures TriangleList(a + b, m)
    decreases |a|
  {
    if a == [] {
      assert a + b == b;
    } else {
      AppendTriangles(a[3..], b, n, m);
      assert (a + b)[3..] == a[3..] + b;
    }
  }

  /** One triangle with three different corners below `n`. */
  lemma OneTriangle(x: uint32, y: uint32, z: uint32, n: nat)
    requires x != y && y != z && x != z && x < n && y < n && z < n
    ensures TriangleList([x, y, z], n)
  {
    assert [x, y, z][3..] == [];
  }

  /** Two triangles, each with three different corners below `n`. */
  lemma TwoTriangles(t: seq<uint32>, n: nat)
    requires |t| == 6 && forall i :: 0 <= i < 6 ==> t[i] < n
    requires t[0] != t[1] && t[1] != t[2] && t[0] != t[2]
    requires t[3] != t[4] && t[4] != t[5] && t[3] != t[5]
    ensures TriangleList(t, n)
  {
    OneTriangle(t[3], t[4], t[5], n);
    assert t[3..] == [t[3], t[4], t[5]];
  }

  // ---------------------------------------------------------------------------
  // Quads and boxes

  /**
   * addQuad's split of the quad idx0-idx1-idx2-idx3 into two triangles along
   * the diagonal idx1-idx3. The corners run clockwise from the top left.
   */
  function QuadIndices(a: uint32, b: uint32, c: uint32, d: uint32): seq<uint32>
  {
    [a, b, d, b, c, d]
  }

  /** The directed edges of the triangle x, y, z. */
  function TriangleEdges(x: uint32, y: uint32, z: uint32): set<(uint32, uint32)>
  {
    {(x, y), (y, z), (z, x)}
  }

  /**
   * The two triangles of a quad together walk the quad's four sides in the
   * quad's own order. They also walk the diagonal b-d once in each direction,
   * so both triangles share the quad's winding. With four different corners
   * both triangles are proper triangles.
   */
  lemma QuadSplitsAlongDiagonal(a: uint32, b: uint32, c: uint32, d: uint32, n: nat)
    ensures var q := QuadIndices(a, b, c, d);
      TriangleEdges(q[0], q[1], q[2]) + TriangleEdges(q[3], q[4], q[5])
        == {(a, b), (b, c), (c, d), (d, a), (b, d), (d, b)}
    ensures a != b && a != c && a != d && b != c && b != d && c != d && a < n && b < n && c < n && d < n
      ==> TriangleList(QuadIndices(a, b, c, d), n)
  {
    var q := QuadIndices(a, b, c, d);
    if a != b && a != c && a != d && b != c && b != d && c != d && a < n && b < n && c < n && d < n {
      TwoTriangles(q, n);
    }
  }

  /**
   * The indices addBox appends for its first `faces` faces when the
   * builder's next index is `start`. Each face is one quad over four
   * consecutive new vertices, counted in uint32_t.
   */
  function BoxIndices(start: uint32, faces: nat): seq<uint32>
  {
    if faces == 0 then []
    else
      var n := Add32(start, 4 * (faces - 1));
      BoxIndices(start, faces - 1) + QuadIndices(n, Add32(n, 1), Add32(n, 2), Add32(n, 3))
  }

  /**
   * When the new vertices fit in uint32_t, the box's faces produce six
   * indices each, all among the new vertices, and every new vertex is used.
   */
  lemma {:induction false} BoxIndicesInRange(start: uint32, faces: nat)
    requires start + 4 * faces <= TWO_32
    ensures |BoxIndices(start, faces)| == 6 * faces
    ensures forall i :: 0 <= i < |BoxIndices(start, faces)| ==>
      start <= BoxIndices(start, faces)[i] < start + 4 * faces
    ensures forall v: int :: start <= v < start + 4 * faces ==> v in BoxIndices(start, faces)
  {
    if faces > 0 {
      BoxIndicesInRange(start, faces - 1);
      var prev := BoxIndices(start, faces - 1);
      var n: uint32 := start + 4 * (faces - 1);
      Add32NoWrap(start, 4 * (faces - 1));
      Add32NoWrap(n, 1);
      Add32NoWrap(n, 2);
      Add32NoWrap(n, 3);
      var quad := QuadIndices(n, n + 1, n + 2, n + 3);
      assert BoxIndices(start, faces) == prev + quad;
      forall v: int | start <= v < start + 4 * faces
        ensures v in prev + quad
      {
        if v < n {
          assert v in prev;
        } else {
          assert v == quad[0] || v == quad[1] || v == quad[4] || v == quad[2];
        }
      }
    }
  }

  /**
   * One face of addBox: with the running index at the face's first vertex,
   * its quad extends the box's indices, and adding 4 moves to the next face.
   */
  lemma BoxFaceStep(start: uint32, s: nat, nextIndex: uint32)
    requires nextIndex == Add32(start, 4 * s)
    ensures BoxIndices(start, s + 1) ==
      BoxIndices(start, s) + QuadIndices(Add32(nextIndex, 0), Add32(nextIndex, 1), Add32(nextIndex, 2), Add32(nextIndex, 3))
    ensures Add32(nextIndex, 4) == Add32(start, 4 * (s + 1))
  {
    assert Add32(nextIndex, 0) == nextIndex;
    Add32Twice(start, 4 * s, 4);
  }

  /** No triangle of a box is degenerate, and all refer to the box's own vertices. */
  lemma {:induction false} BoxTriangles(start: uint32, faces: nat)
    requires start + 4 * faces <= TWO_32
    ensures TriangleList(BoxIndices(start, faces), start + 4 * faces)
  {
    if faces > 0 {
      BoxTriangles(start, faces - 1);
      var n: uint32 := start + 4 * (faces - 1);
      Add32NoWrap(start, 4 * (faces - 1));
      Add32NoWrap(n, 1);
      Add32NoWrap(n, 2);
      Add32NoWrap(n, 3);
      QuadSplitsAlongDiagonal(n, n + 1, n + 2, n + 3, start + 4 * faces);
      AppendTriangles(BoxIndices(start, faces - 1), QuadIndices(n, n + 1, n + 2, n + 3),
        start + 4 * (faces - 1), start + 4 * faces);
    }
  }

  // ---------------------------------------------------------------------------
  // The transformation applied to positions and normals

  /** What setTransformation stores: nothing for the identity, else the matrix. */
  function StoredTransformation(m: Matrix): (r: Option<Matrix>)
    ensures r != Some(IDENTITY)
    ensures r.None? <==> m == IDENTITY
  {
    if m == IDENTITY then None else Some(m)
  }

  /** getTransformation as intended: the stored matrix, or the identity. */
  function EffectiveTransformation(t: Option<Matrix>): Matrix
  {
    if t.Some? then t.value else IDENTITY
  }

  /**
   * getTransformation as written. Its test is inverted: it returns the
   * identity when a matrix is stored, and dereferences the empty transMat
   * (None here) when none is.
   */
  function TransformationAsWritten(t: Option<Matrix>): (r: Option<Matrix>)
    ensures t.Some? && t.value != IDENTITY ==> r != Some(EffectiveTransformation(t))
    ensures t.None? ==> r.None?
  {
    if t.Some? then Some(IDENTITY) else None
  }

  /** Reading the transformation back gives the matrix that was set. */
  lemma GetAfterSetReturnsMatrix(m: Matrix)
    ensures EffectiveTransformation(StoredTransformation(m)) == m
  {
  }

  /**
   * As written, a non-identity matrix that was set reads back as the
   * identity. Setting the identity leaves nothing to dereference.
   */
  lemma GetAfterSetAsWrittenLosesMatrix(m: Matrix)
    ensures m != IDENTITY ==> TransformationAsWritten(StoredTransformation(m)) == Some(IDENTITY)
    ensures m == IDENTITY ==> TransformationAsWritten(StoredTransformation(m)) == None
  {
  }

  // ---------------------------------------------------------------------------
  // The builder

  class MeshBuilder {
    var verts: seq<VertexRecord>
    var currentVertex: VertexRecord
    var inds: seq<uint32>
    var transMat: Option<Matrix>

    /** A builder for vertices of `vertexSize` bytes, with nothing collected yet. */
    constructor(vertexSize: nat)
      ensures verts == [] && inds == [] && transMat == None
      ensures |currentVertex| == vertexSize
    {
      verts := [];
      inds := [];
      transMat := None;
      currentVertex := Fill(vertexSize, 0);
    }

    /** The index the next added vertex gets: the vertex count as uint32_t. */
    function NextIndex(): (r: uint32)
      reads this
      ensures |verts| < TWO_32 ==> r == |verts|
      ensures r <= |verts|
    {
      Trunc32(|verts|)
    }

    /** The builder is empty when it holds no vertex. */
    predicate IsEmpty()
      reads this
      ensures IsEmpty() ==> NextIndex() == 0
      ensures !IsEmpty() && |verts| < TWO_32 ==> NextIndex() != 0
    {
      verts == []
    }

    /**
     * The attribute setters (position, normal, colour, texture coordinate),
     * which update the vertex being assembled. Here they replace it whole.
     */
    method SetCurrentVertex(v: VertexRecord)
      modifies this`currentVertex
      ensures currentVertex == v
    {
      currentVertex := v;
    }

    /** Appends a copy of the vertex being assembled and returns its index. */
    method AddVertex() returns (idx: uint32)
      modifies this`verts
      ensures verts == old(verts) + [currentVertex]
      ensures idx == old(NextIndex())
      ensures |old(verts)| < TWO_32 ==> idx == |old(verts)| && verts[idx] == currentVertex
    {
      verts := verts + [currentVertex];
      idx := Trunc32(|verts| - 1);
    }

    method AddIndex(idx: uint32)
      modifies this`inds
      ensures inds == old(inds) + [idx]
    {
      inds := inds + [idx];
    }

    method AddTriangle(idx0: uint32, idx1: uint32, idx2: uint32)
      modifies this`inds
      ensures inds == old(inds) + [idx0, idx1, idx2]
    {
      AddIndex(idx0);
      AddIndex(idx1);
      AddIndex(idx2);
    }

    method AddQuad(idx0: uint32, idx1: uint32, idx2: uint32, idx3: uint32)
      modifies this`inds
      ensures inds == old(inds) + QuadIndices(idx0, idx1, idx2, idx3)
    {
      AddIndex(idx0);
      AddIndex(idx1);
      AddIndex(idx3);
      AddIndex(idx1);
      AddIndex(idx2);
      AddIndex(idx3);
    }

    /**
     * Hands the collected vertices and indices over to a new mesh and clears
     * them. An empty builder builds nothing and keeps its state. Without
     * indices the mesh draws without index data.
     */
    method BuildMesh() returns (m: Option<BuiltMesh>)
      modifies this`verts, this`inds
      ensures old(verts) == [] ==> m == None && verts == old(verts) && inds == old(inds)
      ensures old(verts) != [] ==> (
        && m == Some(BuiltMesh(old(verts), IndexDataOf(old(inds))))
        && verts == [] && inds == [])
    {
      if IsEmpty() {
        return None;
      }
      var vertices := verts;
      verts := [];
      if inds == [] {
        m := Some(BuiltMesh(vertices, None));
      } else {
        var lo, hi := MeshIndexDatas.MinMax(inds);
        m := Some(BuiltMesh(vertices, Some(IndexData(inds, lo, hi))));
        inds := [];
      }
    }

    /**
     * Adds the six faces of a box: four new vertices per face, then one quad
     * over them. `corners` are the 24 face vertices in face order. Their
     * coordinates come from the box geometry.
     */
    method AddBox(corners: seq<VertexRecord>)
      requires |corners| == 24
      modifies this`verts, this`inds, this`currentVertex
      ensures verts == old(verts) + corners
      ensures inds == old(inds) + BoxIndices(old(NextIndex()), 6)
      ensures currentVertex == corners[23]
    {
      var start := NextIndex();
      var nextIndex := start;
      var s := 0;
      while s < 6
        invariant 0 <= s <= 6
        invariant verts == old(verts) + corners[..4 * s]
        invariant inds == old(inds) + BoxIndices(start, s)
        invariant nextIndex == Add32(start, 4 * s)
        invariant s > 0 ==> currentVertex == corners[4 * s - 1]
      {
        ghost var faceStart := inds;
        var v := 0;
        while v < 4
          invariant 0 <= v <= 4
          invariant verts == old(verts) + corners[..4 * s + v]
          invariant inds == faceStart
          invariant s > 0 || v > 0 ==> currentVertex == corners[4 * s + v - 1]
        {
          SetCurrentVertex(corners[4 * s + v]);
          var _ := AddVertex();
          assert corners[..4 * s + v + 1] == corners[..4 * s + v] + [corners[4 * s + v]];
          AppendAssoc(old(verts), corners[..4 * s + v], [corners[4 * s + v]]);
          v := v + 1;
        }
        BoxFaceStep(start, s, nextIndex);
        AddQuad(Add32(nextIndex, 0), Add32(nextIndex, 1), Add32(nextIndex, 2), Add32(nextIndex, 3));
        AppendAssoc(old(inds), BoxIndices(start, s),
          QuadIndices(Add32(nextIndex, 0), Add32(nextIndex, 1), Add32(nextIndex, 2), Add32(nextIndex, 3)));
        nextIndex := Add32(nextIndex, 4);
        s := s + 1;
      }
      assert corners[..24] == corners;
    }

    /** Stores a transformation, or forgets it when given the identity. */
    method SetTransformation(m: Matrix)
      modifies this`transMat
      ensures transMat == StoredTransformation(m)
    {
      if m == IDENTITY {
        transMat := None;
      } else {
        transMat := Some(m);
      }
    }

    /** getTransformation with its test the right way round. */
    function GetTransformation(): (r: Matrix)
      reads this
      ensures transMat.Some? ==> r == transMat.value
      ensures transMat != Some(IDENTITY) ==> StoredTransformation(r) == transMat
    {
      EffectiveTransformation(transMat)
    }
  }

  /** Below 2^32, adding in uint32_t is plain addition. */
  lemma Add32NoWrap(a: uint32, k: nat)
    requires a + k < TWO_32
    ensures Add32(a, k) == a + k
  {
  }

  /** Adding in uint32_t twice is adding the sum once. */
  lemma Add32Twice(a: uint32, j: nat, k: nat)
    ensures Add32(Add32(a, j), k) == Add32(a, j + k)
  {
    var x := a + j;
    var q := x / TWO_32;
    assert x == q * TWO_32 + x % TWO_32;
    assert x + k == q * TWO_32 + (x % TWO_32 + k);
    assert (q * TWO_32 + (x % TWO_32 + k)) % TWO_32 == (x % TWO_32 + k) % TWO_32 by {
      ModOfMultipleAdded(q, x % TWO_32 + k);
    }
  }

  /** Adding a multiple of 2^32 does not change a value modulo 2^32. */
  lemma ModOfMultipleAdded(q: nat, y: nat)
    ensures (q * TWO_32 + y) % TWO_32 == y % TWO_32
  {
    ModOfSum(q + y / TWO_32, TWO_32, y % TWO_32);
    assert q * TWO_32 + y == (q + y / TWO_32) * TWO_32 + y % TWO_32;
  }

  // ---------------------------------------------------------------------------
  // Factories that go through a builder

  /**
   * A box built from an empty builder has 36 indices, ranging from 0 to 23:
   * 12 triangles over its 24 vertices (see BoxIndicesInRange).
   */
  lemma BoxIndexData()
    ensures |BoxIndices(0, 6)| == 36
    ensures IndexDataOf(BoxIndices(0, 6)) == Some(IndexData(BoxIndices(0, 6), 0, 23))
  {
    BoxIndicesInRange(0, 6);
    RangeIs(BoxIndices(0, 6), 0, 23);
  }

  /**
   * createBox: a builder gets the box's 24 face vertices and six quads, and
   * builds a mesh over vertices 0 to 23.
   */
  method CreateBox(vertexSize: nat, corners: seq<VertexRecord>) returns (m: Option<BuiltMesh>)
    requires |corners| == 24
    ensures m == Some(BuiltMesh(corners, Some(IndexData(BoxIndices(0, 6), 0, 23))))
  {
    var b := new MeshBuilder(vertexSize);
    assert b.NextIndex() == 0;
    b.AddBox(corners);
    assert b.verts == corners;
    assert b.inds == BoxIndices(0, 6);
    BoxIndexData();
    m := b.BuildMesh();
  }

  /** The rectangle's one quad covers its four vertices, from 0 to 3. */
  lemma RectangleIndexData()
    ensures IndexDataOf(QuadIndices(0, 1, 2, 3)) == Some(IndexData(QuadIndices(0, 1, 2, 3), 0, 3))
  {
    RangeIs(QuadIndices(0, 1, 2, 3), 0, 3);
  }

  /** createRectangle: four corner vertices and one quad over them. */
  method CreateRectangle(vertexSize: nat, corners: seq<VertexRecord>) returns (m: Option<BuiltMesh>)
    requires |corners| == 4
    ensures m == Some(BuiltMesh(corners, Some(IndexData(QuadIndices(0, 1, 2, 3), 0, 3))))
  {
    var b := RectangleBuilder(vertexSize, corners);
    RectangleIndexData();
    m := b.BuildMesh();
  }

  /** The builder createRectangle fills: its four corners, in order, and one quad. */
  method RectangleBuilder(vertexSize: nat, corners: seq<VertexRecord>) returns (b: MeshBuilder)
    requires |corners| == 4
    ensures fresh(b) && b.verts == corners && b.inds == QuadIndices(0, 1, 2, 3)
  {
    b := new MeshBuilder(vertexSize);
    b.SetCurrentVertex(corners[0]);
    var _ := b.AddVertex();
    b.SetCurrentVertex(corners[1]);
    var _ := b.AddVertex();
    b.SetCurrentVertex(corners[2]);
    var _ := b.AddVertex();
    b.SetCurrentVertex(corners[3]);
    var _ := b.AddVertex();
    b.AddQuad(0, 1, 2, 3);
    assert b.verts == corners;
  }

  /** The triangles createDiscSector adds for its first `k` segments. */
  function DiscIndices(k: nat): seq<uint32>
    requires k <= 255
  {
    if k == 0 then [] else DiscIndices(k - 1) + [0, k, k + 1]
  }

  /**
   * A disc sector of `n` segments is a fan of `n` triangles around the
   * centre vertex 0. It uses every one of its `n + 2` vertices.
   */
  lemma {:induction false} DiscShape(n: nat)
    requires n <= 255
    ensures |DiscIndices(n)| == 3 * n
    ensures TriangleList(DiscIndices(n), n + 2)
    ensures forall i :: 0 <= i < |DiscIndices(n)| && i % 3 == 0 ==> DiscIndices(n)[i] == 0
    ensures n >= 1 ==> forall v :: 0 <= v < n + 2 ==> v in DiscIndices(n)
  {
    if n > 0 {
      DiscShape(n - 1);
      var prev := DiscIndices(n - 1);
      var tri: seq<uint32> := [0, n, n + 1];
      OneTriangle(0, n, n + 1, n + 2);
      AppendTriangles(prev, tri, n + 1, n + 2);
      assert DiscIndices(n) == prev + tri;
      forall v | 0 <= v < n + 2
        ensures v in prev + tri
      {
        if v < n + 1 && n > 1 {
          assert v in prev;
        } else {
          assert v == tri[0] || v == tri[1] || v == tri[2];
        }
      }
    }
  }

  /** The fan's indices run from the centre, 0, to the last rim vertex, n + 1. */
  lemma DiscIndexData(n: nat)
    requires 1 <= n <= 255
    ensures IndexDataOf(DiscIndices(n)) == Some(IndexData(DiscIndices(n), 0, n + 1))
  {
    DiscShape(n);
    TrianglesBelow(DiscIndices(n), n + 2);
    RangeIs(DiscIndices(n), 0, n + 1);
  }

  /**
   * createDiscSector, with its loop counters wide enough to pass 255 (see
   * Fast8CounterNeverExceeds255). The builder gets the centre, then
   * `numSegments + 1` rim vertices, then one triangle per segment.
   */
  method CreateDiscSector(vertexSize: nat, numSegments: uint8, center: VertexRecord, rim: seq<VertexRecord>)
    returns (m: Option<BuiltMesh>)
    requires |rim| == numSegments + 1
    ensures numSegments < 1 ==> m == None
    ensures numSegments >= 1 ==>
      m == Some(BuiltMesh([center] + rim, Some(IndexData(DiscIndices(numSegments), 0, numSegments + 1))))
  {
    if numSegments < 1 {
      return None;
    }
    var b := new MeshBuilder(vertexSize);
    b.SetCurrentVertex(center);
    var _ := b.AddVertex();
    var segment := 0;
    while segment <= numSegments
      invariant 0 <= segment <= numSegments + 1
      invariant b.verts == [center] + rim[..segment] && b.inds == []
    {
      b.SetCurrentVertex(rim[segment]);
      var _ := b.AddVertex();
      assert rim[..segment + 1] == rim[..segment] + [rim[segment]];
      segment := segment + 1;
    }
    assert rim[..numSegments + 1] == rim;
    segment := 1;
    while segment <= numSegments
      invariant 1 <= segment <= numSegments + 1
      invariant b.verts == [center] + rim && b.inds == DiscIndices(segment - 1)
    {
      b.AddTriangle(0, segment, segment + 1);
      segment := segment + 1;
    }
    DiscIndexData(numSegments);
    m := b.BuildMesh();
  }

  // ---------------------------------------------------------------------------
  // The uint_fast8_t loop counters of createRingSector and createDiscSector

  /** `++segment` on a uint_fast8_t, which is 8 bits wide on the common ABIs. */
  function Fast8Inc(s: uint8): uint8
  {
    (s + 1) % 256
  }

  /** The counter after `k` increments from 0. */
  function Fast8After(k: nat): uint8
  {
    if k == 0 then 0 else Fast8Inc(Fast8After(k - 1))
  }

  /**
   * After any number of increments the counter is that number modulo 256,
   * so it never passes 255. A loop that runs while `segment <= numSegments`
   * therefore never ends when numSegments is 255.
   */
  lemma {:induction false} Fast8CounterNeverExceeds255(k: nat)
    ensures Fast8After(k) == k % 256
    ensures Fast8After(k) <= 255
  {
    if k > 0 {
      Fast8CounterNeverExceeds255(k - 1);
      Mod256Step(k);
    }
  }

  /** One more increment modulo 256. */
  lemma Mod256Step(k: nat)
    requires k > 0
    ensures ((k - 1) % 256 + 1) % 256 == k % 256
  {
    var q, r := (k - 1) / 256, (k - 1) % 256;
    assert k == 256 * q + r + 1;
    if r == 255 {
      assert k == 256 * (q + 1) + 0;
    } else {
      assert k == 256 * q + (r + 1);
    }
  }

  // ---------------------------------------------------------------------------
  // Factories that write their indices straight into a mesh

  /** The indices createRingSector writes for its first `k` segments. */
  function RingSectorIndices(k: nat): seq<uint32>
    requires k <= 255
  {
    if k == 0 then []
    else
      var s := 2 * (k - 1);
      RingSectorIndices(k - 1) + [s, s + 1, s + 3, s, s + 3, s + 2]
  }

  /**
   * A ring sector of `n` segments is a strip of `n` quads between its inner
   * and outer rim. It uses every one of its `2n + 2` vertices.
   */
  lemma {:induction false} RingSectorShape(n: nat)
    requires n <= 255
    ensures |RingSectorIndices(n)| == 6 * n
    ensures TriangleList(RingSectorIndices(n), 2 * n + 2)
    ensures n >= 1 ==> forall v :: 0 <= v < 2 * n + 2 ==> v in RingSectorIndices(n)
  {
    if n > 0 {
      RingSectorShape(n - 1);
      var prev := RingSectorIndices(n - 1);
      var s := 2 * (n - 1);
      var quad: seq<uint32> := [s, s + 1, s + 3, s, s + 3, s + 2];
      TwoTriangles(quad, 2 * n + 2);
      AppendTriangles(prev, quad, 2 * n, 2 * n + 2);
      assert RingSectorIndices(n) == prev + quad;
      forall v | 0 <= v < 2 * n + 2
        ensures v in prev + quad
      {
        if v < s {
          assert v in prev;
        } else {
          assert v == quad[0] || v == quad[1] || v == quad[5] || v == quad[2];
        }
      }
    }
  }

  /** A ring sector's indices run from 0 to its last outer vertex. */
  lemma RingSectorRange(n: nat)
    requires 1 <= n <= 255
    ensures MeshIndexDatas.SeqMin(RingSectorIndices(n)) == 0
    ensures MeshIndexDatas.SeqMax(RingSectorIndices(n)) == 2 * n + 1
  {
    RingSectorShape(n);
    TrianglesBelow(RingSectorIndices(n), 2 * n + 2);
    RangeIs(RingSectorIndices(n), 0, 2 * n + 1);
  }

  /**
   * createRingSector: rejects fewer than one segment, and an inner radius
   * that is not below the outer one. Otherwise it builds `2n + 2` vertices
   * (inner and outer rim at each of the `n + 1` angles) and one quad per
   * segment. The vertex loop's counter is taken wide enough to pass 255
   * (see Fast8CounterNeverExceeds255).
   */
  method CreateRingSector(innerRadius: real, outerRadius: real, numSegments: uint8) returns (m: Option<ShapeMesh>)
    ensures m.None? <==> numSegments < 1 || innerRadius >= outerRadius
    ensures m.Some? ==>
      m.value == ShapeMesh(2 * numSegments + 2, Some(IndexData(RingSectorIndices(numSegments), 0, 2 * numSegments + 1)))
  {
    if numSegments < 1 || innerRadius >= outerRadius {
      return None;
    }
    var inds: seq<uint32> := [];
    var segment := 0;
    while segment < numSegments
      invariant 0 <= segment <= numSegments
      invariant inds == RingSectorIndices(segment)
    {
      inds := inds + [0 + segment * 2, 1 + segment * 2, 3 + segment * 2,
                      0 + segment * 2, 3 + segment * 2, 2 + segment * 2];
      segment := segment + 1;
    }
    RingSectorRange(numSegments);
    var lo, hi := MeshIndexDatas.MinMax(inds);
    m := Some(ShapeMesh(2 * numSegments + 2, Some(IndexData(inds, lo, hi))));
  }

  /** The side triangles createCone writes for segments 1 to k - 1. */
  function ConeFan(k: nat): seq<uint32>
    requires 1 <= k <= 255
  {
    if k == 1 then [] else ConeFan(k - 1) + [k - 1, 0, k]
  }

  /** All of createCone's indices: the fan, closed by the triangle back to vertex 1. */
  function ConeIndices(n: nat): seq<uint32>
    requires 2 <= n <= 255
  {
    ConeFan(n) + [n, 0, 1]
  }

  lemma {:induction false} ConeFanShape(k: nat)
    requires 1 <= k <= 255
    ensures |ConeFan(k)| == 3 * (k - 1)
    ensures TriangleList(ConeFan(k), k + 1)
    ensures forall i :: 0 <= i < |ConeFan(k)| && i % 3 == 1 ==> ConeFan(k)[i] == 0
    ensures k >= 2 ==> forall v :: 0 <= v <= k ==> v in ConeFan(k)
  {
    if k > 1 {
      ConeFanShape(k - 1);
      var prev := ConeFan(k - 1);
      var tri: seq<uint32> := [k - 1, 0, k];
      OneTriangle(k - 1, 0, k, k + 1);
      AppendTriangles(prev, tri, k, k + 1);
      assert ConeFan(k) == prev + tri;
      forall v | 0 <= v <= k
        ensures v in prev + tri
      {
        if v == 0 {
          assert v == tri[1];
        } else if v < k - 1 {
          assert v in prev;
        } else {
          assert v == tri[0] || v == tri[2];
        }
      }
    }
  }

  /**
   * A cone of `n` segments has `n` triangles. Each one has the apex,
   * vertex 0, as its middle corner, and together they use all `n + 1`
   * vertices.
   */
  lemma ConeShape(n: nat)
    requires 2 <= n <= 255
    ensures |ConeIndices(n)| == 3 * n
    ensures TriangleList(ConeIndices(n), n + 1)
    ensures forall i :: 0 <= i < |ConeIndices(n)| && i % 3 == 1 ==> ConeIndices(n)[i] == 0
    ensures forall v :: 0 <= v <= n ==> v in ConeIndices(n)
  {
    ConeFanShape(n);
    var fan := ConeFan(n);
    var last: seq<uint32> := [n, 0, 1];
    OneTriangle(n, 0, 1, n + 1);
    AppendTriangles(fan, last, n + 1, n + 1);
    forall v | 0 <= v <= n
      ensures v in fan + last
    {
      assert v in fan;
    }
  }

  /** A cone's indices run from the apex, 0, to the last base vertex. */
  lemma ConeRange(n: nat)
    requires 2 <= n <= 255
    ensures MeshIndexDatas.SeqMin(ConeIndices(n)) == 0
    ensures MeshIndexDatas.SeqMax(ConeIndices(n)) == n
  {
    ConeShape(n);
    TrianglesBelow(ConeIndices(n), n + 1);
    RangeIs(ConeIndices(n), 0, n);
  }

  /**
   * createCone: rejects fewer than two segments. Otherwise it builds the apex
   * and `n` base vertices, a triangle per segment from 1 to n - 1, and a
   * closing triangle.
   */
  method CreateCone(radius: real, height: real, numSegments: uint8) returns (m: Option<ShapeMesh>)
    ensures m.None? <==> numSegments < 2
    ensures m.Some? ==>
      m.value == ShapeMesh(numSegments + 1, Some(IndexData(ConeIndices(numSegments), 0, numSegments)))
  {
    if numSegments < 2 {
      return None;
    }
    var inds: seq<uint32> := [];
    var segment := 1;
    while segment < numSegments
      invariant 1 <= segment <= numSegments
      invariant inds == ConeFan(segment)
    {
      inds := inds + [segment, 0, segment + 1];
      segment := segment + 1;
    }
    inds := inds + [numSegments, 0, 1];
    ConeRange(numSegments);
    var lo, hi := MeshIndexDatas.MinMax(inds);
    m := Some(ShapeMesh(numSegments + 1, Some(IndexData(inds, lo, hi))));
  }

  /** The side quads createConicalFrustum writes for its first `j` segments. */
  function FrustumBand(j: nat): seq<uint32>
    requires j <= 254
  {
    if j == 0 then []
    else
      var s := 2 * (j - 1);
      FrustumBand(j - 1) + [s, s + 1, s + 2, s + 2, s + 1, s + 3]
  }

  /** All of createConicalFrustum's indices: the band, closed by the quad back to vertices 0 and 1. */
  function FrustumIndices(n: nat): seq<uint32>
    requires 2 <= n <= 255
  {
    FrustumBand(n - 1) + [2 * n - 2, 2 * n - 1, 0, 0, 2 * n - 1, 1]
  }

  lemma {:induction false} FrustumBandShape(j: nat)
    requires j <= 254
    ensures |FrustumBand(j)| == 6 * j
    ensures TriangleList(FrustumBand(j), 2 * j + 2)
    ensures j >= 1 ==> forall v :: 0 <= v < 2 * j + 2 ==> v in FrustumBand(j)
  {
    if j > 0 {
      FrustumBandShape(j - 1);
      var prev := FrustumBand(j - 1);
      var s := 2 * (j - 1);
      var quad: seq<uint32> := [s, s + 1, s + 2, s + 2, s + 1, s + 3];
      TwoTriangles(quad, 2 * j + 2);
      AppendTriangles(prev, quad, 2 * j, 2 * j + 2);
      assert FrustumBand(j) == prev + quad;
      forall v | 0 <= v < 2 * j + 2
        ensures v in prev + quad
      {
        if v < s {
          assert v in prev;
        } else {
          assert v == quad[0] || v == quad[1] || v == quad[2] || v == quad[5];
        }
      }
    }
  }

  /**
   * A conical frustum of `n` segments has `2n` triangles. Together they use
   * all `2n` vertices of its bottom and top circles.
   */
  lemma FrustumShape(n: nat)
    requires 2 <= n <= 255
    ensures |FrustumIndices(n)| == 6 * n
    ensures TriangleList(FrustumIndices(n), 2 * n)
    ensures forall v :: 0 <= v < 2 * n ==> v in FrustumIndices(n)
  {
    FrustumBandShape(n - 1);
    var band := FrustumBand(n - 1);
    var last: seq<uint32> := [2 * n - 2, 2 * n - 1, 0, 0, 2 * n - 1, 1];
    TwoTriangles(last, 2 * n);
    AppendTriangles(band, last, 2 * n, 2 * n);
    forall v | 0 <= v < 2 * n
      ensures v in band + last
    {
      assert v in band;
    }
  }

  /** A frustum's indices run from 0 to its last top vertex. */
  lemma FrustumRange(n: nat)
    requires 2 <= n <= 255
    ensures MeshIndexDatas.SeqMin(FrustumIndices(n)) == 0
    ensures MeshIndexDatas.SeqMax(FrustumIndices(n)) == 2 * n - 1
  {
    FrustumShape(n);
    TrianglesBelow(FrustumIndices(n), 2 * n);
    RangeIs(FrustumIndices(n), 0, 2 * n - 1);
  }

  /** Closing the band gives all of the frustum's indices, from 0 to 2n - 1. */
  lemma FrustumClosed(band: seq<uint32>, n: nat)
    requires 2 <= n <= 255 && band == FrustumBand(n - 1)
    ensures var inds := band + [2 * n - 2, 2 * n - 1, 0, 0, 2 * n - 1, 1];
      && inds == FrustumIndices(n) && inds != []
      && MeshIndexDatas.SeqMin(inds) == 0 && MeshIndexDatas.SeqMax(inds) == 2 * n - 1
  {
    FrustumRange(n);
  }

  /**
   * createConicalFrustum: rejects fewer than two segments. Otherwise it
   * builds a bottom and a top vertex per segment, a quad between
   * consecutive segments, and a closing quad.
   */
  method CreateConicalFrustum(radiusBottom: real, radiusTop: real, height: real, numSegments: uint8)
    returns (m: Option<ShapeMesh>)
    ensures m.None? <==> numSegments < 2
    ensures m.Some? ==>
      m.value == ShapeMesh(2 * numSegments, Some(IndexData(FrustumIndices(numSegments), 0, 2 * numSegments - 1)))
  {
    if numSegments < 2 {
      return None;
    }
    var inds: seq<uint32> := [];
    var segment := 0;
    ghost var quads := 0;
    while segment < 2 * (numSegments - 1)
      invariant 0 <= quads <= numSegments - 1 && segment == 2 * quads
      invariant inds == FrustumBand(quads)
    {
      inds := inds + [segment, segment + 1, segment + 2, segment + 2, segment + 1, segment + 3];
      segment := segment + 2;
      quads := quads + 1;
    }
    FrustumClosed(inds, numSegments);
    inds := inds + [2 * numSegments - 2, 2 * numSegments - 1, 0, 0, 2 * numSegments - 1, 1];
    var lo, hi := MeshIndexDatas.MinMax(inds);
    m := Some(ShapeMesh(2 * numSegments, Some(IndexData(inds, lo, hi))));
  }

  // ---------------------------------------------------------------------------
  // The hexagonal grid

  /**
   * The triangles createHexGrid adds at cell (r, c). Only cells inside the
   * border get triangles. Odd and even rows are split differently, and the
   * last inner column gets one triangle instead of two. Arithmetic is in
   * uint32_t.
   */
  function HexCell(r: nat, c: nat, rows: uint32, columns: uint32): seq<uint32>
  {
    if 0 < c && c + 2 < columns && 0 < r && r + 2 < rows then
      var idx: uint32 := (c + r * columns) % TWO_32;
      if r % 2 == 1 then
        [idx, Add32(idx, columns), Add32(Add32(idx, columns), 1)]
        + (if c + 3 < columns then [idx, Add32(Add32(idx, columns), 1), Add32(idx, 1)] else [])
      else
        [idx, Add32(idx, columns), Add32(idx, 1)]
        + (if c + 3 < columns then [Add32(idx, 1), Add32(idx, columns), Add32(Add32(idx, columns), 1)] else [])
    else []
  }

  /** The triangles of the first `c` cells of row `r`. */
  function HexRow(r: nat, c: nat, rows: uint32, columns: uint32): seq<uint32>
  {
    if c == 0 then [] else HexRow(r, c - 1, rows, columns) + HexCell(r, c - 1, rows, columns)
  }

  /** The triangles of the first `r` rows. */
  function HexRows(r: nat, rows: uint32, columns: uint32): seq<uint32>
  {
    if r == 0 then [] else HexRows(r - 1, rows, columns) + HexRow(r - 1, columns, rows, columns)
  }

  /**
   * The triangles of one cell refer to grid vertices and are proper
   * triangles, provided the grid's vertices fit in uint32_t.
   */
  lemma HexCellShape(r: nat, c: nat, rows: uint32, columns: uint32)
    requires columns >= 4 && rows >= 3 && rows * columns <= TWO_32
    ensures TriangleList(HexCell(r, c, rows, columns), rows * columns)
  {
    if 0 < c && c + 2 < columns && 0 < r && r + 2 < rows {
      var n := rows * columns;
      MulMonotone(columns, r + 1, rows - 2);
      assert (r + 1) * columns == r * columns + columns;
      assert (rows - 2) * columns + 2 * columns == n;
      var idx: uint32 := c + r * columns;
      assert idx + columns + 1 < n;
      assert (c + r * columns) % TWO_32 == idx;
      assert Add32(idx, columns) == idx + columns;
      assert Add32(Add32(idx, columns), 1) == idx + columns + 1;
      assert Add32(idx, 1) == idx + 1;
      var cell := HexCell(r, c, rows, columns);
      if c + 3 < columns {
        TwoTriangles(cell, n);
      } else {
        OneTriangle(cell[0], cell[1], cell[2], n);
        assert cell == [cell[0], cell[1], cell[2]];
      }
    }
  }

  lemma {:induction false} HexRowShape(r: nat, c: nat, rows: uint32, columns: uint32)
    requires columns >= 4 && rows >= 3 && rows * columns <= TWO_32
    ensures TriangleList(HexRow(r, c, rows, columns), rows * columns)
  {
    if c > 0 {
      var n := rows * columns;
      HexRowShape(r, c - 1, rows, columns);
      HexCellShape(r, c - 1, rows, columns);
      AppendTriangles(HexRow(r, c - 1, rows, columns), HexCell(r, c - 1, rows, columns), n, n);
    }
  }

  lemma {:induction false} HexRowsShape(r: nat, rows: uint32, columns: uint32)
    requires columns >= 4 && rows >= 3 && rows * columns <= TWO_32
    ensures TriangleList(HexRows(r, rows, columns), rows * columns)
  {
    if r > 0 {
      var n := rows * columns;
      HexRowsShape(r - 1, rows, columns);
      HexRowShape(r - 1, columns, rows, columns);
      AppendTriangles(HexRows(r - 1, rows, columns), HexRow(r - 1, columns, rows, columns), n, n);
    }
  }

  /**
   * When its vertices fit in uint32_t, the hexagonal grid's index list is a
   * list of proper triangles over its `rows * columns` vertices.
   */
  lemma HexGridShape(rows: uint32, columns: uint32)
    requires columns >= 4 && rows >= 3 && rows * columns <= TWO_32
    ensures TriangleList(HexRows(rows, rows, columns), rows * columns)
  {
    HexRowsShape(rows, rows, columns);
  }

  lemma {:induction false} HexRowOfThreeRowGridIsEmpty(r: nat, c: nat, columns: uint32)
    ensures HexRow(r, c, 3, columns) == []
  {
    if c > 0 {
      HexRowOfThreeRowGridIsEmpty(r, c - 1, columns);
    }
  }

  /**
   * The smallest grid createHexGrid accepts, three rows, has no inner row,
   * so its mesh has vertices but no triangles.
   */
  lemma ThreeRowGridHasNoTriangles(columns: uint32)
    ensures HexRows(3, 3, columns) == []
  {
    HexRowOfThreeRowGridIsEmpty(0, columns, columns);
    HexRowOfThreeRowGridIsEmpty(1, columns, columns);
    HexRowOfThreeRowGridIsEmpty(2, columns, columns);
    assert HexRows(1, 3, columns) == [];
    assert HexRows(2, 3, columns) == [];
  }

  /** The triangles createHexGrid adds right after the vertex of cell (r, c). */
  method HexCellTriangles(r: nat, c: nat, rows: uint32, columns: uint32) returns (cell: seq<uint32>)
    requires columns >= 4 && rows >= 3
    ensures cell == HexCell(r, c, rows, columns)
  {
    cell := [];
    if c > 0 && c < columns - 2 && r > 0 && r < rows - 2 {
      var idx: uint32 := (c + r * columns) % TWO_32;
      if r % 2 == 1 {
        cell := [idx, Add32(idx, columns), Add32(Add32(idx, columns), 1)];
        if c < columns - 3 {
          cell := cell + [idx, Add32(Add32(idx, columns), 1), Add32(idx, 1)];
        }
      } else {
        cell := [idx, Add32(idx, columns), Add32(idx, 1)];
        if c < columns - 3 {
          cell := cell + [Add32(idx, 1), Add32(idx, columns), Add32(Add32(idx, columns), 1)];
        }
      }
    }
  }

  /**
   * createHexGrid: rejects fewer than four columns or three rows. Otherwise
   * it adds a vertex per cell, row by row, with the triangles of the cell
   * after it, and builds the mesh.
   */
  method CreateHexGrid(width: real, height: real, rows: uint32, columns: uint32) returns (m: Option<ShapeMesh>)
    ensures m.None? <==> columns < 4 || rows < 3
    ensures m.Some? ==> m.value == ShapeMesh(rows * columns, IndexDataOf(HexRows(rows, rows, columns)))
  {
    if columns < 4 || rows < 3 {
      return None;
    }
    var vertexCount := 0;
    var inds: seq<uint32> := [];
    var r := 0;
    while r < rows
      invariant 0 <= r <= rows
      invariant inds == HexRows(r, rows, columns) && vertexCount == r * columns
    {
      var row: seq<uint32> := [];
      var c := 0;
      while c < columns
        invariant 0 <= c <= columns
        invariant row == HexRow(r, c, rows, columns)
        invariant vertexCount == r * columns + c
      {
        vertexCount := vertexCount + 1;
        var cell := HexCellTriangles(r, c, rows, columns);
        row := row + cell;
        c := c + 1;
      }
      inds := inds + row;
      assert (r + 1) * columns == r * columns + columns;
      r := r + 1;
    }
    if inds == [] {
      m := Some(ShapeMesh(vertexCount, None));
    } else {
      var lo, hi := MeshIndexDatas.MinMax(inds);
      m := Some(ShapeMesh(vertexCount, Some(IndexData(inds, lo, hi))));
    }
  }

  // ---------------------------------------------------------------------------
  // The voxel mesh's argument guard

  /**
   * The grid resolution createVoxelMesh derives from a bitmap: the bitmap is
   * `depth` layers stacked vertically. Bitmaps with fewer than four colour
   * components, or whose height is not a multiple of `depth`, are rejected.
   * The component test comes first, so a zero depth is harmless there; the
   * height test divides by `depth`.
   */
  function VoxelResolution(components: nat, width: nat, height: nat, depth: nat): (r: Option<(nat, nat, nat)>)
    requires components < 4 || depth > 0
    ensures components < 4 ==> r.None?
    ensures components >= 4 ==> (r.None? <==> height % depth != 0)
    ensures r.Some? ==> r.value.0 == width && r.value.1 * depth == height && r.value.2 == depth
  {
    if components < 4 then None
    else if height % depth != 0 then None
    else Some((width, height / depth, depth))
  }
}
