/** `soil::terrain_renderer` (the revision whose constructor takes the heightmap itself): one
    vertex/index buffer holding a d×d vertex grid followed by a uint16 triangle list, one
    frame slot per swapchain image cycled once per `draw`. Vulkan objects, shaders and float
    matrix math are outside the model; matrices are carried as opaque values. */
module SoilTerrainRenderer {
  import opened CppextNumeric
  import opened Grids
  import opened CppextCyclicStack
  import opened SoilHeightmap

  /** `sizeof(vertex)`: a vec3 and a vec2, each `alignas(16)`, so two 16-byte members. */
  const VertexSize: nat := 32
  /** `sizeof(uint16_t)`. */
  const IndexSize: nat := 2
  /** The widest grid whose vertex indices all narrow to uint16: 256 * 256 - 1 == 65535. */
  const MaxIndexedDimension: nat := 256

  // ---------------------------------------------------------------------------------------
  // Buffer sizes and layout

  /** `vertex_count_`: one vertex per grid point. */
  function VertexCount(d: nat): nat
  {
    d * d
  }

  /** Quads per side of the grid: one fewer than the points per side, none for an empty grid. */
  function QuadsPerSide(d: nat): nat
  {
    if d == 0 then 0 else d - 1
  }

  /** `index_count_`: six indices (two triangles) per quad. */
  function IndexCount(d: nat): nat
  {
    6 * QuadsPerSide(d) * QuadsPerSide(d)
  }

  /** `index_offset_`: the indices follow the vertices in the same buffer. */
  function IndexOffset(d: nat): nat
  {
    VertexCount(d) * VertexSize
  }

  /** `vertex_buffer_size`: the vertex region plus the index region. */
  function BufferSize(d: nat): nat
  {
    IndexOffset(d) + IndexCount(d) * IndexSize
  }

  /** The index region starts on a uint16 boundary, as `vkCmdBindIndexBuffer` with UINT16
      requires. */
  lemma BufferLayout(d: nat)
    ensures IndexOffset(d) % IndexSize == 0
  {
    DivModUnique(IndexOffset(d), IndexSize, VertexCount(d) * 16, 0);
  }

  // ---------------------------------------------------------------------------------------
  // The vertex grid

  /** A staged vertex: position (x, height, z) and texture coordinate (u, v). */
  datatype Vertex = Vertex(x: nat, height: real, z: nat, u: nat, v: nat)

  /** The vertex the constructor writes for grid point (x, y). */
  function MeshVertex(h: Heightmap, x: nat, y: nat): Vertex
    requires h.Valid() && x < h.dimension && y < h.dimension
  {
    Vertex(x, h.Value(x, y), y, x % 2, y % 2)
  }

  /** The whole vertex region, row-major over the heightmap's grid. */
  function MeshVertices(h: Heightmap): (s: seq<Vertex>)
    requires h.Valid()
    ensures |s| == VertexCount(h.dimension)
  {
    RowMajor(h.dimension, (x: nat, y: nat) requires h.Valid() && x < h.dimension && y < h.dimension => MeshVertex(h, x, y))
  }

  /** The vertex in slot y*d + x sits at grid position (x, y) with the height `value(x, y)`
      and the texture coordinate (x mod 2, y mod 2). */
  lemma MeshVertexAt(h: Heightmap, x: nat, y: nat)
    requires h.Valid() && x < h.dimension && y < h.dimension
    ensures Slot(h.dimension, x, y) < |MeshVertices(h)|
    ensures MeshVertices(h)[Slot(h.dimension, x, y)] == Vertex(x, h.Value(x, y), y, x % 2, y % 2)
  {
    RowMajorAt(h.dimension, (x: nat, y: nat) requires h.Valid() && x < h.dimension && y < h.dimension => MeshVertex(h, x, y), x, y);
  }

  /** The vertex loop: every slot y*d + x is written with the vertex of grid point (x, y). */
  method FillVertices(vertices: array<Vertex>, h: Heightmap)
    requires h.Valid() && vertices.Length == VertexCount(h.dimension)
    modifies vertices
    ensures vertices[..] == MeshVertices(h)
  {
    var d := h.dimension;
    ghost var f := (x: nat, y: nat) requires h.Valid() && x < h.dimension && y < h.dimension => MeshVertex(h, x, y);
    ghost var target := RowMajor(d, f);
    var y: nat := 0;
    while y != d
      invariant y <= d
      invariant Slot(d, 0, y) <= |target|
      invariant vertices[..Slot(d, 0, y)] == target[..Slot(d, 0, y)]
    {
      var x: nat := 0;
      while x != d
        invariant x <= d
        invariant Slot(d, x, y) <= |target|
        invariant vertices[..Slot(d, x, y)] == target[..Slot(d, x, y)]
      {
        RowMajorAt(d, f, x, y);
        vertices[y * d + x] := Vertex(x, h.Value(x, y), y, x % 2, y % 2);
        x := x + 1;
      }
      SlotStep(d, x, y);
      y := y + 1;
    }
    assert vertices[..] == vertices[..Slot(d, 0, d)];
  }

  // ---------------------------------------------------------------------------------------
  // The index buffer

  /** The six indices of quad (x, z): triangles (top-left, bottom-left, top-right) and
      (top-right, bottom-left, bottom-right) over row-major vertex slots. */
  function QuadCorners(d: nat, x: nat, z: nat): seq<nat>
  {
    [z * d + x, (z + 1) * d + x, z * d + x + 1, z * d + x + 1, (z + 1) * d + x, (z + 1) * d + x + 1]
  }

  /** Index k of the buffer: corner k mod 6 of quad number k / 6, quads taken row by row. */
  function IndexAt(d: nat, k: nat): nat
    requires k < IndexCount(d)
  {
    var q := QuadsPerSide(d);
    QuadCount(d, k);
    QuadCorners(d, (k / 6) % q, (k / 6) / q)[k % 6]
  }

  lemma QuadCount(d: nat, k: nat)
    requires k < IndexCount(d)
    ensures k / 6 < QuadsPerSide(d) * QuadsPerSide(d)
    ensures 0 < QuadsPerSide(d) && (k / 6) % QuadsPerSide(d) < QuadsPerSide(d) && (k / 6) / QuadsPerSide(d) < QuadsPerSide(d)
  {
    var q := QuadsPerSide(d);
    assert k < 6 * (q * q);
    SlotOnto(q, k / 6);
  }

  /** The whole index region the loop writes. */
  function QuadIndices(d: nat): (s: seq<nat>)
    ensures |s| == IndexCount(d)
  {
    seq(IndexCount(d), k requires 0 <= k < IndexCount(d) => IndexAt(d, k))
  }

  /** The six indices of quad (x, z) sit at position 6*(z*(d-1) + x), where the advancing
      pointer stands when the loop reaches that quad. */
  lemma QuadIndicesAt(d: nat, x: nat, z: nat, c: nat)
    requires x < QuadsPerSide(d) && z < QuadsPerSide(d) && c < 6
    ensures 6 * Slot(QuadsPerSide(d), x, z) + c < IndexCount(d)
    ensures QuadIndices(d)[6 * Slot(QuadsPerSide(d), x, z) + c] == QuadCorners(d, x, z)[c]
  {
    var q := QuadsPerSide(d);
    var n := Slot(q, x, z);
    SlotCoordinates(q, x, z);
    DivModUnique(6 * n + c, 6, n, c);
    assert 6 * n + c < 6 * (q * q);
  }

  /** Every corner of an in-range quad is a vertex slot of the grid; the last one is the largest. */
  lemma CornersInRange(d: nat, x: nat, z: nat)
    requires x < QuadsPerSide(d) && z < QuadsPerSide(d)
    ensures forall c :: 0 <= c < 6 ==> QuadCorners(d, x, z)[c] <= QuadCorners(d, x, z)[5] < d * d
  {
    assert (z + 1) * d <= (d - 1) * d by { MulLeft(z + 1, d - 1, d); }
    assert (d - 1) * d + d == d * d;
  }

  /** Every index the loop emits references an existing vertex. */
  lemma IndicesInRange(d: nat)
    ensures forall k :: 0 <= k < |QuadIndices(d)| ==> QuadIndices(d)[k] < VertexCount(d)
  {
    forall k | 0 <= k < |QuadIndices(d)|
      ensures QuadIndices(d)[k] < VertexCount(d)
    {
      IndexInRange(d, k);
    }
  }

  lemma IndexInRange(d: nat, k: nat)
    requires k < IndexCount(d)
    ensures QuadIndices(d)[k] < VertexCount(d)
  {
    QuadCount(d, k);
    var q := QuadsPerSide(d);
    var x, z, c := (k / 6) % q, (k / 6) / q, k % 6;
    assert QuadIndices(d)[k] == QuadCorners(d, x, z)[c];
    CornersInRange(d, x, z);
  }

  /** The largest index is d*d - 1, so every index narrows to uint16 exactly when d <= 256. */
  lemma IndicesFitUint16Iff(d: nat)
    ensures (forall k :: 0 <= k < |QuadIndices(d)| ==> QuadIndices(d)[k] <= Uint16Max)
        <==> d <= MaxIndexedDimension
  {
    IndicesInRange(d);
    if d <= MaxIndexedDimension {
      MulLeft(d, MaxIndexedDimension, d);
      MulLeft(d, MaxIndexedDimension, MaxIndexedDimension);
    } else {
      var q := QuadsPerSide(d);
      QuadIndicesAt(d, q - 1, q - 1, 5);
      assert QuadCorners(d, q - 1, q - 1)[5] == d * d - 1;
      MulLeft(MaxIndexedDimension + 1, d, d);
      MulLeft(MaxIndexedDimension + 1, d, MaxIndexedDimension + 1);
    }
  }


  /** Each triangle of a quad has three distinct indices, and the two triangles share the
      diagonal between the top-right and the bottom-left vertex. */
  lemma TrianglesNonDegenerate(d: nat, x: nat, z: nat)
    requires x < QuadsPerSide(d) && z < QuadsPerSide(d)
    ensures var c := QuadCorners(d, x, z);
      c[0] != c[1] && c[1] != c[2] && c[0] != c[2] &&
      c[3] != c[4] && c[4] != c[5] && c[3] != c[5]
    ensures var c := QuadCorners(d, x, z);
      {c[0], c[1], c[2]} * {c[3], c[4], c[5]} == {z * d + x + 1, (z + 1) * d + x}
  {
    var c := QuadCorners(d, x, z);
    assert c[1] == c[0] + d && c[5] == c[3] + d;
    assert d >= 2;
  }

  /** Twice the signed area of the triangle with grid points (ax, az), (bx, bz), (cx, cz). */
  function Turn(ax: int, az: int, bx: int, bz: int, cx: int, cz: int): int
  {
    (bx - ax) * (cz - az) - (bz - az) * (cx - ax)
  }

  /** The same for a triangle given by vertex slots, each slot naming grid point (v mod d, v / d). */
  function Orientation(d: nat, a: nat, b: nat, c: nat): int
    requires d > 0
  {
    Turn(a % d, a / d, b % d, b / d, c % d, c / d)
  }

  /** Both triangles of every quad turn the same way in the grid plane, so one front-face
      setting (the pipeline uses counter-clockwise) culls all triangles alike. */
  lemma QuadWinding(d: nat, x: nat, z: nat)
    requires x < QuadsPerSide(d) && z < QuadsPerSide(d)
    ensures var c := QuadCorners(d, x, z);
      Orientation(d, c[0], c[1], c[2]) == -1 && Orientation(d, c[3], c[4], c[5]) == -1
  {
    var c := QuadCorners(d, x, z);
    SlotCoordinates(d, x, z);
    SlotCoordinates(d, x + 1, z);
    SlotCoordinates(d, x, z + 1);
    SlotCoordinates(d, x + 1, z + 1);
    assert Orientation(d, c[0], c[1], c[2]) == Turn(x, z, x, z + 1, x + 1, z);
    assert Orientation(d, c[3], c[4], c[5]) == Turn(x + 1, z, x, z + 1, x + 1, z + 1);
  }

  /** A corner index above the uint16 range only occurs on a grid wider than 256. */
  lemma NarrowFailureMeansWide(d: nat, x: nat, z: nat)
    requires x < QuadsPerSide(d) && z < QuadsPerSide(d)
    requires exists c :: 0 <= c < 6 && QuadCorners(d, x, z)[c] > Uint16Max
    ensures d > MaxIndexedDimension
  {
    CornersInRange(d, x, z);
    if d <= MaxIndexedDimension {
      MulLeft(d, MaxIndexedDimension, d);
      MulLeft(d, MaxIndexedDimension, MaxIndexedDimension);
    }
  }

  /** Where the pointer stands when the index loop reaches quad (x, z). */
  function QuadStart(d: nat, x: nat, z: nat): nat
  {
    6 * Slot(QuadsPerSide(d), x, z)
  }

  /** The six entries from QuadStart on are the corners of quad (x, z), in order. */
  lemma QuadSlice(d: nat, x: nat, z: nat)
    requires x < QuadsPerSide(d) && z < QuadsPerSide(d)
    ensures QuadStart(d, x, z) + 6 <= IndexCount(d)
    ensures QuadIndices(d)[QuadStart(d, x, z)..QuadStart(d, x, z) + 6] == QuadCorners(d, x, z)
  {
    var p := QuadStart(d, x, z);
    QuadIndicesAt(d, x, z, 0);
    QuadIndicesAt(d, x, z, 1);
    QuadIndicesAt(d, x, z, 2);
    QuadIndicesAt(d, x, z, 3);
    QuadIndicesAt(d, x, z, 4);
    QuadIndicesAt(d, x, z, 5);
    assert QuadIndices(d)[p..p + 6] == QuadCorners(d, x, z);
  }

  /** Index values as the unsigned integers they denote. */
  function Widen16(a: seq<uint16>): (r: seq<nat>)
    ensures |r| == |a| && forall k :: 0 <= k < |a| ==> r[k] == a[k] as nat
  {
    seq(|a|, k requires 0 <= k < |a| => a[k] as nat)
  }

  /** Widening distributes over concatenation. */
  lemma Widen16Append(a: seq<uint16>, b: seq<uint16>)
    ensures Widen16(a + b) == Widen16(a) + Widen16(b)
  {
    assert Widen16(a + b) == Widen16(a) + Widen16(b);
  }

  /** One quad of the index loop: narrows its six corner indices `corners` to uint16 and
      writes them through the pointer `p`. Fails, as `cppext::narrow` throws, if one does not fit. */
  method WriteNarrowed(indices: array<uint16>, p: nat, corners: seq<nat>) returns (ok: bool)
    requires |corners| == 6 && p + 6 <= indices.Length
    modifies indices
    ensures ok <==> forall c :: 0 <= c < 6 ==> corners[c] <= Uint16Max
    ensures ok ==> indices[..p] == old(indices[..p]) && indices[p + 6..] == old(indices[p + 6..])
    ensures ok ==> Widen16(indices[p..p + 6]) == corners
  {
    var i0 := Narrow16(corners[0]);
    var i1 := Narrow16(corners[1]);
    var i2 := Narrow16(corners[2]);
    var i3 := Narrow16(corners[3]);
    var i4 := Narrow16(corners[4]);
    var i5 := Narrow16(corners[5]);
    if i0.None? || i1.None? || i2.None? || i3.None? || i4.None? || i5.None? {
      return false;
    }
    indices[p] := i0.value;
    indices[p + 1] := i1.value;
    indices[p + 2] := i2.value;
    indices[p + 3] := i3.value;
    indices[p + 4] := i4.value;
    indices[p + 5] := i5.value;
    assert Widen16(indices[p..p + 6]) == corners;
    ok := true;
  }

  /** One iteration of the index loop: quad (x, z) extends the written prefix by six entries. */
  method FillQuad(indices: array<uint16>, d: nat, x: nat, z: nat, p: nat) returns (ok: bool)
    requires x < QuadsPerSide(d) && z < QuadsPerSide(d) && p == QuadStart(d, x, z)
    requires indices.Length == IndexCount(d) && p <= indices.Length
    requires Widen16(indices[..p]) == QuadIndices(d)[..p]
    modifies indices
    ensures !ok ==> d > MaxIndexedDimension
    ensures ok ==> p + 6 <= indices.Length
    ensures ok ==> Widen16(indices[..p + 6]) == QuadIndices(d)[..p + 6]
  {
    QuadSlice(d, x, z);
    var corners := QuadCorners(d, x, z);
    ok := WriteNarrowed(indices, p, corners);
    if !ok {
      NarrowFailureMeansWide(d, x, z);
      return;
    }
    assert indices[..p + 6] == indices[..p] + indices[p..p + 6];
    Widen16Append(indices[..p], indices[p..p + 6]);
    assert QuadIndices(d)[..p + 6] == QuadIndices(d)[..p] + QuadIndices(d)[p..p + 6];
  }

  /** The index loop, writing six narrowed indices per quad through a pointer that advances
      by 6. It fails (as `cppext::narrow` throws) exactly when the grid is wider than 256;
      otherwise it has written the whole index region. */
  method FillIndices(indices: array<uint16>, d: nat) returns (ok: bool)
    requires indices.Length == IndexCount(d)
    modifies indices
    ensures ok <==> d <= MaxIndexedDimension
    ensures ok ==> Widen16(indices[..]) == QuadIndices(d)
  {
    var q := QuadsPerSide(d);
    var p: nat := 0;
    var z: nat := 0;
    while z != q
      invariant z <= q
      invariant p == 6 * Slot(q, 0, z) <= indices.Length
      invariant Widen16(indices[..p]) == QuadIndices(d)[..p]
    {
      var x: nat := 0;
      while x != q
        invariant x <= q
        invariant p == QuadStart(d, x, z) <= indices.Length
        invariant Widen16(indices[..p]) == QuadIndices(d)[..p]
      {
        var quadOk := FillQuad(indices, d, x, z, p);
        if !quadOk {
          return false;
        }
        p := p + 6;
        x := x + 1;
      }
      SlotStep(q, x, z);
      z := z + 1;
    }
    assert p == indices.Length by {
      assert Slot(q, 0, q) == q * q;
      assert IndexCount(d) == 6 * (q * q);
    }
    assert indices[..] == indices[..p];
    assert QuadIndices(d) == QuadIndices(d)[..p];
    IndicesFitUint16Iff(d);
    ok := true;
  }

  /** On a grid of at most 256 points per side both counts fit uint32. */
  lemma CountsFitUint32(d: nat)
    requires d <= MaxIndexedDimension
    ensures VertexCount(d) <= Uint32Max && IndexCount(d) <= Uint32Max
  {
    MulLeft(d, MaxIndexedDimension, d);
    MulLeft(d, MaxIndexedDimension, MaxIndexedDimension);
    var q := QuadsPerSide(d);
    MulLeft(q, MaxIndexedDimension, q);
    MulLeft(q, MaxIndexedDimension, MaxIndexedDimension);
    assert IndexCount(d) == 6 * (q * q);
  }

  // ---------------------------------------------------------------------------------------
  // An empty heightmap, as the constructor is written

  /** `(heightmap.dimension() - 1) * (heightmap.dimension() - 1) * 6` in size_t arithmetic. */
  function IndexCountAsWritten(d: nat): nat
  {
    SizeT(SizeT(SizeT(d - 1) * SizeT(d - 1)) * 6)
  }

  /** The row bound `heightmap.dimension() - 1` of the index loop in size_t arithmetic. */
  function QuadRowsAsWritten(d: nat): nat
  {
    SizeT(d - 1)
  }

  /** For dimension 0 the unsigned `dimension() - 1` wraps: `index_count_` becomes 6 (one quad)
      and the loop bounds become 2^64 - 1. Quad x of row 0 has the indices x and x + 1 only,
      so quads 1 to 65534 narrow without failing and are written at entries 6 onwards, past
      the 6-entry index region (and the 12-byte buffer), before quad 65535 throws. With no
      quads for an empty grid the region and the loop agree (IndexCount and FillIndices). */
  lemma EmptyHeightmapOverrunsIndexRegion()
    ensures IndexCountAsWritten(0) == 6
    ensures QuadRowsAsWritten(0) == SizeModulus - 1
    ensures forall x :: 1 <= x < 65535 ==>
      6 * Slot(QuadRowsAsWritten(0), x, 0) >= IndexCountAsWritten(0) &&
      forall c :: 0 <= c < 6 ==> QuadCorners(0, x, 0)[c] <= Uint16Max
    ensures QuadCorners(0, 65535, 0)[2] > Uint16Max
    ensures IndexCount(0) == 0 && QuadIndices(0) == []
  {
    assert SizeT(-1) == SizeModulus - 1;
    var m: int := (SizeModulus - 1) * (SizeModulus - 1);
    DivModUnique(m, SizeModulus, SizeModulus - 2, 1);
  }

  /** For every non-empty grid up to 65536 points per side, the wrapped computation agrees with
      IndexCount: the discrepancy is confined to dimension 0. */
  lemma IndexCountAsWrittenAgrees(d: nat)
    requires 1 <= d <= 0x1_0000
    ensures IndexCountAsWritten(d) == IndexCount(d)
  {
    var q := d - 1;
    MulLeft(q, 0xFFFF, q);
    MulLeft(q, 0xFFFF, 0xFFFF);
    assert q * q <= 0xFFFF * 0xFFFF;
  }

  // ---------------------------------------------------------------------------------------
  // Frame slots and drawing

  /** A glm::mat4, carried but never computed on. */
  type Matrix = seq<real>

  /** What a frame slot's mapped `transform` uniform holds; None is memory never written. */
  datatype FrameSlot = FrameSlot(model: Option<Matrix>, view: Option<Matrix>, projection: Option<Matrix>)

  /** The commands `draw` records, in order (viewport and scissor are left out). */
  datatype Command =
    | BeginRenderPass
    | BindVertexBuffer(bufferOffset: nat)
    | BindIndexBuffer(indexOffset: nat, indexSize: nat)
    | BindDescriptorSet(slot: nat)
    | DrawIndexed(indexCount: nat, instanceCount: nat, firstIndex: nat, baseVertex: int, firstInstance: nat)
    | EndRenderPass

  /** The commands of one frame drawn with frame slot `slot`. */
  function FrameCommands(indexOffset: nat, indexCount: nat, slot: nat): (cs: seq<Command>)
    ensures |cs| == 6 && cs[0] == BeginRenderPass && cs[5] == EndRenderPass
    ensures forall k :: 0 < k < 5 ==> !cs[k].BeginRenderPass? && !cs[k].EndRenderPass?
    ensures forall k :: 0 <= k < |cs| ==> (cs[k].DrawIndexed? <==> k == 4)
    ensures cs[1] == BindVertexBuffer(0)
    ensures cs[2] == BindIndexBuffer(indexOffset, IndexSize) && cs[3] == BindDescriptorSet(slot)
    ensures cs[4] == DrawIndexed(indexCount, 1, 0, 0, 1)
  {
    [BeginRenderPass, BindVertexBuffer(0), BindIndexBuffer(indexOffset, IndexSize),
     BindDescriptorSet(slot), DrawIndexed(indexCount, 1, 0, 0, 1), EndRenderPass]
  }

  class TerrainRenderer {
    const dimension: nat
    const vertexCount: uint32
    const indexOffset: nat
    const indexCount: uint32
    /** The vertex and index regions of `vertex_index_buffer_` once the staging copy is transferred. */
    const vertices: seq<Vertex>
    const indices: seq<uint16>
    const frameData: CyclicStack<FrameSlot>

    /** One frame slot per swapchain image, and the current slot inside the ring. */
    ghost predicate Valid()
      reads this, frameData
    {
      frameData.Valid() && 0 < frameData.cycle == |frameData.data|
    }

    /** Stores the counts and the transferred buffer, then creates one frame slot per swapchain
        image (`cycled_buffer{image_count, image_count}`) and writes `model` into each. */
    constructor Init(d: nat, vertexCount: uint32, indexCount: uint32, vertices: seq<Vertex>,
                     indices: seq<uint16>, imageCount: nat, model: Matrix)
      requires imageCount > 0
      ensures Valid() && fresh(frameData)
      ensures dimension == d && this.vertexCount == vertexCount && this.indexCount == indexCount
      ensures indexOffset == vertexCount as nat * VertexSize
      ensures this.vertices == vertices && this.indices == indices
      ensures frameData.cycle == imageCount && frameData.index == 0
      ensures frameData.data == seq(imageCount, _ => FrameSlot(Some(model), None, None))
    {
      dimension := d;
      this.vertexCount := vertexCount;
      indexOffset := vertexCount as nat * VertexSize;
      this.indexCount := indexCount;
      this.vertices := vertices;
      this.indices := indices;
      var frames := new CyclicStack<FrameSlot>(imageCount, imageCount, FrameSlot(None, None, None));
      var k := 0;
      while k < imageCount
        invariant k <= imageCount
        invariant frames.Valid() && frames.cycle == imageCount && frames.index == 0
        invariant |frames.data| == imageCount
        invariant forall m :: 0 <= m < k ==> frames.data[m] == FrameSlot(Some(model), None, None)
        invariant forall m :: k <= m < imageCount ==> frames.data[m] == FrameSlot(None, None, None)
      {
        frames.SetAt(k, frames.data[k].(model := Some(model)));
        k := k + 1;
      }
      frameData := frames;
    }

    /** The constructor: computes the counts (each narrowed to uint32), stages the vertex grid
        and the index list, and sets up the frame slots. It fails, as a narrowing throws,
        exactly when the grid is wider than 256, except for an empty grid, where the
        model writes no quads (the wrap-around of `dimension() - 1` is under
        EmptyHeightmapOverrunsIndexRegion). `model` is the float model matrix. */
    static method Create(h: Heightmap, imageCount: nat, model: Matrix) returns (r: Option<TerrainRenderer>)
      requires h.Valid() && imageCount > 0
      ensures r.Some? <==> h.dimension <= MaxIndexedDimension
      ensures r.Some? ==> fresh(r.value) && fresh(r.value.frameData) && r.value.Valid()
      ensures r.Some? ==> r.value.dimension == h.dimension
      ensures r.Some? ==> r.value.vertexCount as nat == VertexCount(h.dimension)
      ensures r.Some? ==> r.value.indexCount as nat == IndexCount(h.dimension)
      ensures r.Some? ==> r.value.indexOffset == IndexOffset(h.dimension)
      ensures r.Some? ==> r.value.vertices == MeshVertices(h)
      ensures r.Some? ==> |r.value.vertices| * VertexSize + |r.value.indices| * IndexSize == BufferSize(h.dimension)
      ensures r.Some? ==> Widen16(r.value.indices) == QuadIndices(h.dimension)
      ensures r.Some? ==> r.value.frameData.cycle == imageCount && r.value.frameData.index == 0
      ensures r.Some? ==> r.value.frameData.data == seq(imageCount, _ => FrameSlot(Some(model), None, None))
    {
      var d := h.dimension;
      if d <= MaxIndexedDimension {
        CountsFitUint32(d);
      }
      var vertexCount := Narrow32(d * d);
      var indexCount := Narrow32(IndexCount(d));
      if vertexCount.None? || indexCount.None? {
        return None;
      }
      var vertices := new Vertex[vertexCount.value];
      FillVertices(vertices, h);
      var indices := new uint16[indexCount.value];
      var ok := FillIndices(indices, d);
      if !ok {
        return None;
      }
      var t := new TerrainRenderer.Init(d, vertexCount.value, indexCount.value, vertices[..], indices[..], imageCount, model);
      r := Some(t);
    }

    /** `update(camera)`: writes view and projection into the current frame slot only. */
    method Update(view: Matrix, projection: Matrix)
      requires Valid()
      modifies frameData
      ensures Valid()
      ensures frameData.cycle == old(frameData.cycle) && frameData.index == old(frameData.index)
      ensures frameData.data == old(frameData.data)[old(frameData.index) :=
        old(frameData.data[frameData.index]).(view := Some(view), projection := Some(projection))]
    {
      var slot := frameData.Top();
      frameData.SetTop(slot.(view := Some(view), projection := Some(projection)));
    }

    /** `draw`: one render pass binding the buffer's two regions and the current slot's
        descriptor set, one indexed draw of all indices, then exactly one `cycle()`. */
    method Draw() returns (commands: seq<Command>)
      requires Valid()
      modifies frameData
      ensures Valid()
      ensures commands == FrameCommands(indexOffset, indexCount as nat, old(frameData.index))
      ensures frameData.data == old(frameData.data) && frameData.cycle == old(frameData.cycle)
      ensures frameData.index == Advance(old(frameData.index), frameData.cycle)
    {
      commands := [BeginRenderPass, BindVertexBuffer(0), BindIndexBuffer(indexOffset, IndexSize)];
      commands := commands + [BindDescriptorSet(frameData.Index())];
      commands := commands + [DrawIndexed(indexCount as nat, 1, 0, 0, 1)];
      commands := commands + [EndRenderPass];
      frameData.Cycle();
    }
  }
}
