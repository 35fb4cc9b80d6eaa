/** `soil::terrain`: a 65×65 chunk vertex template shared by every chunk, a device copy of the
    heightmap samples, and a frame that draws 16×16 chunks at one level of detail. The
    per-chunk draw belongs to the chunked renderer, which is not part of this model; a frame is
    modelled as the sequence of calls it makes on that renderer. */
module SoilTerrain {
  import opened CppextNumeric
  import opened Grids
  import SoilHeightmap

  /** `chunk_dimension_`: vertices per side of one chunk. */
  const ChunkDimension: nat := 65
  /** Chunks drawn per side in one frame. */
  const ChunksPerSide: nat := 16
  /** Row stride of the chunk index, one more than the chunks drawn per side. */
  const ChunkIndexStride: nat := 17
  /** `sizeof(terrain_vertex)`: one `glm::uvec2`. */
  const TerrainVertexSize: nat := 8
  /** `sizeof(float)`. */
  const FloatSize: nat := 4

  /** A template vertex: local integer position (x, z) inside a chunk. */
  datatype TerrainVertex = TerrainVertex(x: nat, z: nat)

  /** The template `fill_vertex_buffer` writes: slot z*cd + x holds position (x, z). */
  function ChunkTemplate(cd: nat): (s: seq<TerrainVertex>)
    ensures |s| == cd * cd
  {
    RowMajor(cd, (x: nat, z: nat) => TerrainVertex(x, z))
  }

  /** Each template slot holds its own local coordinates. */
  lemma ChunkTemplateAt(cd: nat, x: nat, z: nat)
    requires x < cd && z < cd
    ensures Slot(cd, x, z) < |ChunkTemplate(cd)|
    ensures ChunkTemplate(cd)[Slot(cd, x, z)] == TerrainVertex(x, z)
  {
    RowMajorAt(cd, (x: nat, z: nat) => TerrainVertex(x, z), x, z);
  }

  /** Every slot of the template is written by exactly one point: the point is recovered
      from the slot, and the vertex found there names that point. */
  lemma ChunkTemplateSlotsDistinct(cd: nat, k: nat)
    requires k < |ChunkTemplate(cd)|
    ensures ChunkTemplate(cd)[k] == TerrainVertex(k % cd, k / cd)
    ensures Slot(cd, ChunkTemplate(cd)[k].x, ChunkTemplate(cd)[k].z) == k
  {
    SlotOnto(cd, k);
  }

  /** `fill_vertex_buffer`'s loop over the staging memory. */
  method FillVertexBuffer(vertices: array<TerrainVertex>, cd: nat)
    requires vertices.Length == cd * cd
    modifies vertices
    ensures vertices[..] == ChunkTemplate(cd)
  {
    ghost var f := (x: nat, z: nat) => TerrainVertex(x, z);
    ghost var target := RowMajor(cd, f);
    var z: nat := 0;
    while z != cd
      invariant z <= cd
      invariant Slot(cd, 0, z) <= |target|
      invariant vertices[..Slot(cd, 0, z)] == target[..Slot(cd, 0, z)]
    {
      var x: nat := 0;
      while x != cd
        invariant x <= cd
        invariant Slot(cd, x, z) <= |target|
        invariant vertices[..Slot(cd, x, z)] == target[..Slot(cd, x, z)]
      {
        RowMajorAt(cd, f, x, z);
        vertices[z * cd + x] := TerrainVertex(x, z);
        x := x + 1;
      }
      SlotStep(cd, x, z);
      z := z + 1;
    }
    assert vertices[..] == vertices[..Slot(cd, 0, cd)];
  }

  // ---------------------------------------------------------------------------------------
  // Buffer sizes

  /** `heightmap.dimension() * heightmap.dimension() * sizeof(float)` in size_t arithmetic. */
  function HeightmapBufferSize(d: nat): nat
  {
    SizeT(SizeT(d * d) * FloatSize)
  }

  /** `values.size_bytes()` of the heightmap's sample span, in size_t arithmetic. */
  function SampleBytes(samples: seq<real>): nat
  {
    SizeT(|samples| * FloatSize)
  }

  /** Reducing modulo 2^64 before or after a multiplication gives the same size_t. */
  lemma SizeTMul(a: nat, k: nat)
    ensures SizeT(SizeT(a) * k) == SizeT(a * k)
  {
    var m: int := SizeModulus;
    var q, r := a / m, a % m;
    var q2, r2 := (r * k) / m, (r * k) % m;
    assert a * k == (q * k + q2) * m + r2 by {
      assert a == q * m + r;
      assert a * k == q * m * k + r * k;
      assert r * k == q2 * m + r2;
    }
    DivModUnique(a * k, m, q * k + q2, r2);
  }

  /** The assertion in `fill_heightmap` holds for every heightmap: the sample span's byte
      count equals the buffer size computed in the constructor, wrap-around included. */
  lemma FillHeightmapSizesMatch(h: SoilHeightmap.Heightmap)
    requires h.Valid()
    ensures SampleBytes(h.data) == HeightmapBufferSize(h.dimension)
  {
    var d := h.dimension;
    SizeTMul(d * d, FloatSize);
  }

  /** Below 2^31 samples per side nothing wraps: the buffer holds exactly 4 bytes per sample. */
  lemma HeightmapBufferSizeExact(d: nat)
    requires d < 0x8000_0000
    ensures HeightmapBufferSize(d) == d * d * FloatSize
  {
    MulLeft(d, 0x8000_0000, d);
    MulLeft(d, 0x8000_0000, 0x8000_0000);
    assert d * d < 0x4000_0000_0000_0000;
  }


  // ---------------------------------------------------------------------------------------
  // One frame

  /** The calls `draw` makes on the chunked renderer, in order. A chunk draw is recorded with
      its level of detail, its chunk index and the integer grid translation placing it; the
      float recentring shared by every chunk is not part of this model. */
  datatype RendererCall =
    | BeginRenderPass
    | DrawChunk(lod: uint32, chunkIndex: nat, offsetX: int, offsetY: int, offsetZ: int)
    | EndRenderPass

  /** `j * 17 + i`. */
  function ChunkIndex(i: nat, j: nat): nat
  {
    j * ChunkIndexStride + i
  }

  /** The draw issued for chunk (i, j): placed `cd - 1` vertices further per chunk. */
  function ChunkDraw(lod: uint32, cd: nat, i: nat, j: nat): RendererCall
  {
    DrawChunk(lod, ChunkIndex(i, j), i * (cd - 1), 0, j * (cd - 1))
  }

  /** The whole frame: one render pass around the 16×16 chunk draws, rows (j) outermost. */
  function FrameCalls(lod: uint32, cd: nat): seq<RendererCall>
  {
    [BeginRenderPass] + RowMajor(ChunksPerSide, (i: nat, j: nat) => ChunkDraw(lod, cd, i, j)) + [EndRenderPass]
  }

  /** A frame is 258 calls: one begin, 256 chunk draws, one end, in that order. */
  lemma FrameShape(lod: uint32, cd: nat)
    ensures |FrameCalls(lod, cd)| == ChunksPerSide * ChunksPerSide + 2 == 258
    ensures FrameCalls(lod, cd)[0] == BeginRenderPass
    ensures FrameCalls(lod, cd)[257] == EndRenderPass
    ensures forall k :: 1 <= k < 257 ==> FrameCalls(lod, cd)[k].DrawChunk?
  {
    var draws := RowMajor(ChunksPerSide, (i: nat, j: nat) => ChunkDraw(lod, cd, i, j));
    forall k | 1 <= k < 257
      ensures FrameCalls(lod, cd)[k].DrawChunk?
    {
      assert FrameCalls(lod, cd)[k] == draws[k - 1];
    }
  }

  /** Chunk (i, j) is drawn as call 1 + (j*16 + i), with its own index and placement. */
  lemma FrameDrawAt(lod: uint32, cd: nat, i: nat, j: nat)
    requires i < ChunksPerSide && j < ChunksPerSide
    ensures 1 + Slot(ChunksPerSide, i, j) < |FrameCalls(lod, cd)| - 1
    ensures FrameCalls(lod, cd)[1 + Slot(ChunksPerSide, i, j)] == ChunkDraw(lod, cd, i, j)
  {
    var f := (i: nat, j: nat) => ChunkDraw(lod, cd, i, j);
    RowMajorAt(ChunksPerSide, f, i, j);
  }

  /** Every chunk draw of a frame uses the same level of detail. */
  lemma UniformLod(lod: uint32, cd: nat)
    ensures forall k :: 0 <= k < |FrameCalls(lod, cd)| && FrameCalls(lod, cd)[k].DrawChunk? ==>
      FrameCalls(lod, cd)[k].lod == lod
  {
    var f := (i: nat, j: nat) => ChunkDraw(lod, cd, i, j);
    forall k | 0 <= k < |FrameCalls(lod, cd)| && FrameCalls(lod, cd)[k].DrawChunk?
      ensures FrameCalls(lod, cd)[k].lod == lod
    {
      var n := k - 1;
      SlotOnto(ChunksPerSide, n);
      RowMajorAt(ChunksPerSide, f, n % ChunksPerSide, n / ChunksPerSide);
    }
  }

  /** The 256 chunk indices are pairwise distinct and at most 15*17 + 15 == 270. */
  lemma ChunkIndicesDistinct(i1: nat, j1: nat, i2: nat, j2: nat)
    requires i1 < ChunksPerSide && j1 < ChunksPerSide && i2 < ChunksPerSide && j2 < ChunksPerSide
    ensures ChunkIndex(i1, j1) <= 270
    ensures ChunkIndex(i1, j1) == ChunkIndex(i2, j2) <==> i1 == i2 && j1 == j2
  {
    DivModUnique(ChunkIndex(i1, j1), ChunkIndexStride, j1, i1);
    DivModUnique(ChunkIndex(i2, j2), ChunkIndexStride, j2, i2);
  }

  /** Where a template vertex lands horizontally when drawn by a chunk draw. */
  function PlacedX(call: RendererCall, v: TerrainVertex): int
    requires call.DrawChunk?
  {
    call.offsetX + v.x
  }

  function PlacedZ(call: RendererCall, v: TerrainVertex): int
    requires call.DrawChunk?
  {
    call.offsetZ + v.z
  }

  /** Horizontally neighbouring chunks meet on one shared vertex column: two template vertices
      of chunks (i, j) and (i + 1, j) land on the same point exactly when the first is on the
      last column and the second on the first column of the same row. */
  lemma ChunksShareColumn(lod: uint32, cd: nat, i: nat, j: nat, a: TerrainVertex, b: TerrainVertex)
    requires cd > 0 && a.x < cd && a.z < cd && b.x < cd && b.z < cd
    ensures PlacedX(ChunkDraw(lod, cd, i, j), a) == PlacedX(ChunkDraw(lod, cd, i + 1, j), b) &&
            PlacedZ(ChunkDraw(lod, cd, i, j), a) == PlacedZ(ChunkDraw(lod, cd, i + 1, j), b)
        <==> a.x == cd - 1 && b.x == 0 && a.z == b.z
  {
    assert (i + 1) * (cd - 1) == i * (cd - 1) + (cd - 1);
  }

  /** Vertically neighbouring chunks meet on one shared vertex row. */
  lemma ChunksShareRow(lod: uint32, cd: nat, i: nat, j: nat, a: TerrainVertex, b: TerrainVertex)
    requires cd > 0 && a.x < cd && a.z < cd && b.x < cd && b.z < cd
    ensures PlacedX(ChunkDraw(lod, cd, i, j), a) == PlacedX(ChunkDraw(lod, cd, i, j + 1), b) &&
            PlacedZ(ChunkDraw(lod, cd, i, j), a) == PlacedZ(ChunkDraw(lod, cd, i, j + 1), b)
        <==> a.z == cd - 1 && b.z == 0 && a.x == b.x
  {
    assert (j + 1) * (cd - 1) == j * (cd - 1) + (cd - 1);
  }

  /** ImGui's slider: a dragged value is held inside [lo, hi]. */
  function SliderClamp(v: int, lo: int, hi: int): (r: int)
    requires lo <= hi
    ensures lo <= r <= hi
    ensures lo <= v <= hi ==> r == v
    ensures v < lo ==> r == lo
    ensures v > hi ==> r == hi
  {
    if v < lo then lo else if v > hi then hi else v
  }

  /** The nested chunk loop of `draw` over an n×n block of chunks, rows (j) outermost. */
  method DrawChunks(lod: uint32, cd: nat, n: nat) returns (draws: seq<RendererCall>)
    ensures draws == RowMajor(n, (i: nat, j: nat) => ChunkDraw(lod, cd, i, j))
  {
    ghost var f := (i: nat, j: nat) => ChunkDraw(lod, cd, i, j);
    ghost var target := RowMajor(n, f);
    draws := [];
    var j: nat := 0;
    while j != n
      invariant j <= n
      invariant |draws| == Slot(n, 0, j) <= |target|
      invariant draws == target[..|draws|]
    {
      var i: nat := 0;
      while i != n
        invariant i <= n
        invariant |draws| == Slot(n, i, j) <= |target|
        invariant draws == target[..|draws|]
      {
        RowMajorAt(n, f, i, j);
        draws := draws + [DrawChunk(lod, j * ChunkIndexStride + i, i * (cd - 1), 0, j * (cd - 1))];
        i := i + 1;
      }
      SlotStep(n, i, j);
      j := j + 1;
    }
  }

  class Terrain {
    const terrainDimension: uint32
    const chunkDimension: nat
    const vertexCount: nat
    const vertexBufferSize: nat
    const heightmapBufferSize: nat
    /** The device buffers after their staging copies are transferred. */
    const vertexBuffer: seq<TerrainVertex>
    const heightmapBuffer: seq<real>
    /** `lod_`: the level of detail the slider edits and every chunk draw uses. */
    var lod: int

    constructor Init(terrainDimension: uint32, vertexBuffer: seq<TerrainVertex>, heightmapBufferSize: nat,
                     heightmapBuffer: seq<real>)
      ensures this.terrainDimension == terrainDimension
      ensures chunkDimension == ChunkDimension && vertexCount == ChunkDimension * ChunkDimension
      ensures vertexBufferSize == vertexCount * TerrainVertexSize
      ensures this.heightmapBufferSize == heightmapBufferSize
      ensures this.vertexBuffer == vertexBuffer && this.heightmapBuffer == heightmapBuffer
      ensures lod == 0
    {
      this.terrainDimension := terrainDimension;
      chunkDimension := ChunkDimension;
      vertexCount := ChunkDimension * ChunkDimension;
      vertexBufferSize := ChunkDimension * ChunkDimension * TerrainVertexSize;
      this.heightmapBufferSize := heightmapBufferSize;
      this.vertexBuffer := vertexBuffer;
      this.heightmapBuffer := heightmapBuffer;
      lod := 0;
    }

    /** The constructor: narrows the heightmap's dimension to uint32 (failing, as the narrowing
        throws, when it does not fit), sizes both buffers, copies the samples
        (`fill_heightmap`) and writes the chunk template (`fill_vertex_buffer`). */
    static method Create(h: SoilHeightmap.Heightmap) returns (r: Option<Terrain>)
      requires h.Valid()
      ensures r.Some? <==> h.dimension <= Uint32Max
      ensures r.Some? ==> fresh(r.value)
      ensures r.Some? ==> r.value.terrainDimension as nat == h.dimension && r.value.lod == 0
      ensures r.Some? ==> r.value.chunkDimension == 65 && r.value.vertexCount == 4225
      ensures r.Some? ==> r.value.vertexBufferSize == 4225 * TerrainVertexSize
      ensures r.Some? ==> r.value.heightmapBufferSize == HeightmapBufferSize(h.dimension)
      ensures r.Some? ==> r.value.vertexBuffer == ChunkTemplate(ChunkDimension)
      ensures r.Some? ==> r.value.heightmapBuffer == h.data
    {
      var dimension := Narrow32(h.dimension);
      if dimension.None? {
        return None;
      }
      var bufferSize := SizeT(SizeT(h.dimension * h.dimension) * FloatSize);
      FillHeightmapSizesMatch(h);
      assert SampleBytes(h.data) == bufferSize;
      var heightmapBuffer := h.data;
      var vertices := new TerrainVertex[ChunkDimension * ChunkDimension];
      FillVertexBuffer(vertices, ChunkDimension);
      var t := new Terrain.Init(dimension.value, vertices[..], bufferSize, heightmapBuffer);
      r := Some(t);
    }

    /** `draw`: the render pass around 16×16 chunk draws, rows outermost, each with
        `static_cast<uint32_t>(lod_)`, index `j*17 + i` and translation `(i, 0, j) * (cd - 1)`. */
    method Draw() returns (calls: seq<RendererCall>)
      ensures calls == FrameCalls(CastUint32(lod), chunkDimension)
    {
      var draws := DrawChunks(CastUint32(lod), chunkDimension, ChunksPerSide);
      calls := [BeginRenderPass] + draws + [EndRenderPass];
    }

    /** `draw_imgui`: the "LOD" slider over [0, lod_levels()]. `dragged` is the value the user
        drags to this frame, if any; without interaction `lod_` is unchanged. */
    method DrawImgui(dragged: Option<int>, lodLevels: int)
      requires lodLevels >= 0
      modifies this
      ensures dragged.None? ==> lod == old(lod)
      ensures dragged.Some? ==> lod == SliderClamp(dragged.value, 0, lodLevels)
      ensures dragged.Some? && lodLevels <= Uint32Max ==> CastUint32(lod) as int == lod
    {
      if dragged.Some? {
        lod := SliderClamp(dragged.value, 0, lodLevels);
      }
    }
  }

  /** After the slider is dragged to v, every chunk draw of the next frame carries the clamped
      value itself: the uint32 cast of `lod_` in `draw` loses nothing. */
  lemma SliderFrameLod(v: int, lodLevels: int, cd: nat)
    requires 0 <= lodLevels <= Uint32Max
    ensures forall k ::
      (0 <= k < |FrameCalls(CastUint32(SliderClamp(v, 0, lodLevels)), cd)| &&
       FrameCalls(CastUint32(SliderClamp(v, 0, lodLevels)), cd)[k].DrawChunk?) ==>
      FrameCalls(CastUint32(SliderClamp(v, 0, lodLevels)), cd)[k].lod as int == SliderClamp(v, 0, lodLevels)
  {
    UniformLod(CastUint32(SliderClamp(v, 0, lodLevels)), cd);
  }
}
