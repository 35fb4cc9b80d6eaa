# soil terrain core, modelled in Dafny

This project models the integer core of the soil terrain renderer:

- `cppext::cyclic_stack`, the container with a rotating current index. The renderer's frame slots are a `cppext::cycled_buffer`, whose body is not shown; the model uses `CyclicStack` in its place, one slot per swapchain image;
- the grid mesh built by `soil::terrain_renderer`'s constructor: a d×d vertex grid, a uint16 triangle-list index buffer, and one buffer holding both, vertices first;
- its per-frame slot discipline: `update` writes only the current slot, and `draw` issues one indexed draw and cycles once;
- `soil::terrain`: the 65×65 chunk vertex template, the heightmap buffer size check, the 16×16 chunk draw loop and the LOD slider;
- `soil::heightmap`: row-major samples with a forced-zero centre, read through `value(x, y)`;
- `soil::generate_2d_noise`, which fills the first dimension² bytes of a buffer.

Modules follow the source files:

| file | module |
|---|---|
| `numeric.dfy` | `CppextNumeric`: `cppext::narrow` as `Option`, the uint32 cast, and size_t wrap-around |
| `grids.dfy` | `Grids`: the row-major layout (slot y*d + x) that every fill uses |
| `cyclic_stack.dfy` | `CppextCyclicStack` |
| `perlin.dfy` | `SivPerlin`: the type of the Perlin generator parameter |
| `heightmap.dfy` | `SoilHeightmap` |
| `noise.dfy` | `SoilNoise` |
| `terrain_renderer.dfy` | `SoilTerrainRenderer` |
| `terrain.dfy` | `SoilTerrain` |

Code that changes state in the source is modelled imperatively:

- the cyclic stack is a class whose methods update its fields;
- every fill is a nested `while` loop over an `array` or a growing `seq`, proved equal to a row-major specification function;
- the constructors that can throw (a failed `cppext::narrow`) are static `Create` methods that return `None` for a throw. `SoilTerrain.Terrain.Create` returns `None` exactly when one of its modelled narrowings fails. `SoilTerrainRenderer.TerrainRenderer.Create` does the same for every non-empty heightmap. For dimension 0 it returns a renderer with no indices, while the C++ constructor first writes past its index region and then throws (see Findings).

Floating-point values are carried as `real`. The only arithmetic done on them is the division of lattice coordinates by 50 before the noise is sampled; nothing is rounded. These are parameters:

- the Perlin generator, `Perlin01`, a deterministic function of seed and point;
- noise.cpp's `round(v * 255)` byte conversion, `Quantize`;
- the renderer's float model matrix, and the camera's view and projection matrices passed to `Update`;
- the swap-chain image count passed to the renderer's constructor;
- `lod_levels()` of the chunked renderer, and the value the user drags the LOD slider to.

## Model

| member | source | states |
|---|---|---|
| CppextNumeric.Narrow16 | src/soil/src/terrain_renderer.cpp:251-262 | narrowing to uint16 succeeds exactly for 0..65535 and then keeps the value; otherwise it throws (None) |
| CppextNumeric.Narrow32 | src/soil/src/terrain_renderer.cpp:188-192 | narrowing to uint32 succeeds exactly for 0..2^32-1 and keeps the value |
| CppextNumeric.CastUint32 | src/soil/src/terrain.cpp:77 | `static_cast<uint32_t>` of an int keeps values in range and adds 2^32 to negative ones |
| CppextNumeric.SizeT | src/soil/src/terrain_renderer.cpp:192 | size_t arithmetic is reduction modulo 2^64: exact in range, plus 2^64 for small negative values |
| Grids.SlotInjective | src/soil/src/terrain_renderer.cpp:233-244 | distinct grid points have distinct slots, so a fill writes each slot exactly once |
| Grids.RowMajorAt | src/soil/src/heightmap.cpp:23-31 | in the row-major grid for f, slot y*d + x holds f(x, y) |
| CppextCyclicStack.Advance | src/cppext/include/cppext_cyclic_stack.hpp:109-113 | one `cycle()` step stays below the cycle length, moves to index + 1 and wraps to 0 at the end |
| CppextCyclicStack.AdvanceNIsModular | src/cppext/include/cppext_cyclic_stack.hpp:109-113 | n calls of `cycle()` from an index inside the cycle land on (index + n) mod cycle |
| CppextCyclicStack.FullCycleReturns | src/cppext/test/cppext_cyclic_stack.t.cpp:17-29 | after exactly `cycle` calls the index is back where it started |
| CppextCyclicStack.TopAfterCycles | src/cppext/test/cppext_cyclic_stack.t.cpp:17-29 | from index 0, after n cycles `top()` is element n mod cycle |
| CppextCyclicStack.PoppedAt | src/cppext/include/cppext_cyclic_stack.hpp:134-140 | `pop()` keeps the length, the elements before the index and the last element, and shifts every other later element left by one |
| CppextCyclicStack.CyclicStack.Default | src/cppext/include/cppext_cyclic_stack.hpp:23 | a default stack is empty with cycle length 0 and index 0 |
| CppextCyclicStack.CyclicStack.constructor | src/cppext/include/cppext_cyclic_stack.hpp:76-82 | the cycle length is the argument, the index is 0, and there are `size` value-initialised elements |
| CppextCyclicStack.CyclicStack.Top | src/cppext/include/cppext_cyclic_stack.hpp:84-94 | `top()` is the element at the current index, which must be in bounds |
| CppextCyclicStack.CyclicStack.SetTop | src/cppext/include/cppext_cyclic_stack.hpp:84-88 | assigning through `top()` changes only the current element |
| CppextCyclicStack.CyclicStack.Empty | src/cppext/include/cppext_cyclic_stack.hpp:96-100 | `empty()` holds exactly when there are no elements |
| CppextCyclicStack.CyclicStack.Index | src/cppext/include/cppext_cyclic_stack.hpp:102-107 | `index()` is the current index, inside the cycle once the cycle is non-empty |
| CppextCyclicStack.CyclicStack.Cycle | src/cppext/include/cppext_cyclic_stack.hpp:109-113 | needs a non-zero cycle length; advances the index by one step and leaves the elements and the cycle length alone |
| CppextCyclicStack.CyclicStack.Push | src/cppext/include/cppext_cyclic_stack.hpp:115-125 | appends one element; index, cycle length and earlier elements are unchanged |
| CppextCyclicStack.CyclicStack.Emplace | src/cppext/include/cppext_cyclic_stack.hpp:127-132 | appends one element and returns it; nothing else changes |
| CppextCyclicStack.CyclicStack.Pop | src/cppext/include/cppext_cyclic_stack.hpp:134-140 | needs index < size; the in-place left shift of the tail produces `Popped` of the old contents, with the length unchanged |
| CppextCyclicStack.CyclicStack.Swap | src/cppext/include/cppext_cyclic_stack.hpp:142-149 | containers, cycle lengths and indices are exchanged |
| CppextCyclicStack.CyclicStack.SetAt | src/cppext/include/cppext_cyclic_stack.hpp:163-167 | writing element k of `as_span()` changes that element only |
| CppextCyclicStack.CyclicStack.AsSpan | src/cppext/include/cppext_cyclic_stack.hpp:151-173 | `data()` and `as_span()` expose every element in order |
| CppextCyclicStack.UnitTestScenario | src/cppext/test/cppext_cyclic_stack.t.cpp:5-33 | the unit test's sequence: empty, then not empty, tops 1, 2, 3, 1, 2, and 3 after the pop |
| SoilHeightmap.CentreSampleIsZero | src/soil/src/heightmap.cpp:27-35 | the centre sample (d/2, d/2) of a non-empty heightmap is 0 |
| SoilHeightmap.OtherSamplesAreNoise | src/soil/src/heightmap.cpp:20-31 | every other sample is the Perlin noise, seed 123456, at its own lattice point |
| SoilHeightmap.Heightmap.constructor | src/soil/src/heightmap.cpp:14-38 | the nested `push_back` loops leave exactly d² samples, in row-major order; `dimension()` is the argument and `scaling()` is (10, 5, 10) |
| SoilHeightmap.Heightmap.Value | src/soil/src/heightmap.hpp:32-35 | for x, y < dimension and d² samples, `value(x, y)` is in bounds and is `data()[y*dimension + x]` |
| SoilHeightmap.ValueIsSample | src/soil/src/heightmap.hpp:27-35 | `value(x, y)` of a constructed heightmap is the sample computed for (x, y) |
| SoilNoise.NoiseCellAt | src/soil/src/noise.cpp:20-28 | cell j*d + i of the noise image is the byte for (i, j): seed 123456 and divisor 50 only |
| SoilNoise.Generate2dNoise | src/soil/src/noise.cpp:10-30 | needs at least d² bytes; the first d² become the row-major noise image, the rest are unchanged |
| SoilTerrainRenderer.BufferLayout | src/soil/src/terrain_renderer.cpp:214-215 | `index_offset_`, where the index region starts, is a multiple of the uint16 index size |
| SoilTerrainRenderer.MeshVertexAt | src/soil/src/terrain_renderer.cpp:233-244 | vertex y*d + x has position (x, value(x, y), y) and texture coordinate (x mod 2, y mod 2) |
| SoilTerrainRenderer.FillVertices | src/soil/src/terrain_renderer.cpp:231-244 | the vertex loop writes the whole grid `MeshVertices` |
| SoilTerrainRenderer.QuadIndicesAt | src/soil/src/terrain_renderer.cpp:247-266 | the six indices of quad (x, z) sit at 6*(z*(d-1) + x) and are the quad's two triangles |
| SoilTerrainRenderer.CornersInRange | src/soil/src/terrain_renderer.cpp:251-262 | every corner of an in-range quad is below d², the last corner being the largest |
| SoilTerrainRenderer.IndicesInRange | src/soil/src/terrain_renderer.cpp:247-266 | every emitted index references an existing vertex |
| SoilTerrainRenderer.IndicesFitUint16Iff | src/soil/src/terrain_renderer.cpp:251-262 | all indices narrow to uint16 if and only if d ≤ 256 |
| SoilTerrainRenderer.TrianglesNonDegenerate | src/soil/src/terrain_renderer.cpp:251-262 | each triangle has three distinct indices; the two triangles of a quad share exactly the diagonal {z*d+x+1, (z+1)*d+x} |
| SoilTerrainRenderer.QuadWinding | src/soil/src/terrain_renderer.cpp:251-262 | both triangles of every quad have the same orientation in the grid plane, so back-face culling treats them alike |
| SoilTerrainRenderer.NarrowFailureMeansWide | src/soil/src/terrain_renderer.cpp:251-262 | a corner that does not fit uint16 only occurs on a grid wider than 256 |
| SoilTerrainRenderer.QuadSlice | src/soil/src/terrain_renderer.cpp:251-264 | the six entries at the pointer for quad (x, z) are its corners, in the order written |
| SoilTerrainRenderer.WriteNarrowed | src/soil/src/terrain_renderer.cpp:251-262 | writes the six narrowed values at the pointer and nothing else; fails exactly when one does not fit uint16 |
| SoilTerrainRenderer.FillQuad | src/soil/src/terrain_renderer.cpp:249-265 | one inner iteration extends the correctly written prefix by six entries, or fails only on a grid wider than 256 |
| SoilTerrainRenderer.FillIndices | src/soil/src/terrain_renderer.cpp:246-266 | the index loop fails exactly when d > 256; otherwise it writes the whole index region `QuadIndices` |
| SoilTerrainRenderer.CountsFitUint32 | src/soil/src/terrain_renderer.cpp:188-192 | on a grid of at most 256 per side, the vertex and index counts fit uint32 |
| SoilTerrainRenderer.EmptyHeightmapOverrunsIndexRegion | src/soil/src/terrain_renderer.cpp:191-266 | with dimension 0, `index_count_` wraps to 6 and quads 1 to 65534 are written past the index region |
| SoilTerrainRenderer.IndexCountAsWrittenAgrees | src/soil/src/terrain_renderer.cpp:191-192 | for 1 ≤ d ≤ 65536 the size_t expression equals the corrected count 6(d-1)² |
| SoilTerrainRenderer.FrameCommands | src/soil/src/terrain_renderer.cpp:373-406 | a frame is six commands: begin, bind the vertex buffer at offset 0, bind the index region at `index_offset_` as uint16, bind the slot's descriptor set, one indexed draw of `index_count_` indices with one instance, end; no other begin, end or draw |
| SoilTerrainRenderer.TerrainRenderer.Init | src/soil/src/terrain_renderer.cpp:287-301 | stores the counts and buffer contents, and creates image_count slots (cycle = size = image_count) each holding the model matrix |
| SoilTerrainRenderer.TerrainRenderer.Create | src/soil/src/terrain_renderer.cpp:188-301 | the constructor succeeds exactly when d ≤ 256; it then holds d² vertices `MeshVertices`, the index list `QuadIndices`, the offsets and the frame slots, and its vertices and indices fill exactly the `vertex_buffer_size` bytes allocated |
| SoilTerrainRenderer.TerrainRenderer.Update | src/soil/src/terrain_renderer.cpp:349-355 | writes view and projection into the current frame slot only |
| SoilTerrainRenderer.TerrainRenderer.Draw | src/soil/src/terrain_renderer.cpp:373-408 | records `FrameCommands` with the current slot's descriptor set and index_count indices, then cycles the slots exactly once |
| SoilTerrain.ChunkTemplateAt | src/soil/src/terrain.cpp:133-139 | template slot z*cd + x holds local position (x, z) |
| SoilTerrain.ChunkTemplateSlotsDistinct | src/soil/src/terrain.cpp:133-139 | every template slot names the one point that writes it |
| SoilTerrain.FillVertexBuffer | src/soil/src/terrain.cpp:121-145 | the vertex loop writes the whole chunk template |
| SoilTerrain.SizeTMul | src/soil/src/terrain.cpp:26-27 | reducing modulo 2^64 before or after a multiplication gives the same size_t |
| SoilTerrain.FillHeightmapSizesMatch | src/soil/src/terrain.cpp:99-119 | the assertion in `fill_heightmap` holds for every heightmap, wrap-around included |
| SoilTerrain.HeightmapBufferSizeExact | src/soil/src/terrain.cpp:26-27 | below 2^31 per side the heightmap buffer is exactly 4 bytes per sample |
| SoilTerrain.FrameShape | src/soil/src/terrain.cpp:68-87 | a frame is 258 calls: one begin, 256 chunk draws, one end |
| SoilTerrain.FrameDrawAt | src/soil/src/terrain.cpp:72-85 | chunk (i, j) is call 1 + j*16 + i, with its index and placement |
| SoilTerrain.UniformLod | src/soil/src/terrain.cpp:76-77 | every chunk draw of a frame uses the same level of detail |
| SoilTerrain.ChunkIndicesDistinct | src/soil/src/terrain.cpp:72-78 | chunk indices j*17 + i are at most 270 and equal exactly for equal (i, j) |
| SoilTerrain.ChunksShareColumn | src/soil/src/terrain.cpp:80-83 | chunks (i, j) and (i+1, j) meet exactly on one shared vertex column |
| SoilTerrain.ChunksShareRow | src/soil/src/terrain.cpp:80-83 | chunks (i, j) and (i, j+1) meet exactly on one shared vertex row |
| SoilTerrain.SliderClamp | src/soil/src/terrain.cpp:93 | a dragged value is held in [lo, hi], unchanged when already inside |
| SoilTerrain.DrawChunks | src/soil/src/terrain.cpp:72-85 | the nested chunk loop issues the row-major sequence of chunk draws |
| SoilTerrain.Terrain.Init | src/soil/src/terrain.cpp:18-29 | chunk dimension 65, 4225 template vertices of 8 bytes, lod 0 |
| SoilTerrain.Terrain.Create | src/soil/src/terrain.cpp:13-41 | the constructor succeeds exactly when the dimension fits uint32; it sizes both buffers and holds the samples and the chunk template |
| SoilTerrain.Terrain.Draw | src/soil/src/terrain.cpp:55-88 | a frame is `FrameCalls` at the uint32 cast of `lod_` |
| SoilTerrain.Terrain.DrawImgui | src/soil/src/terrain.cpp:90-97 | the LOD slider leaves `lod_` in [0, lod_levels()] when dragged and unchanged otherwise; a dragged `lod_` passes the uint32 cast in `draw` unchanged |
| SoilTerrain.SliderFrameLod | src/soil/src/terrain.cpp:72-93 | after a drag to v, every chunk draw of the frame carries the clamped v itself |

## Left out

- Vulkan plumbing is not modelled: devices, pipelines, samplers, descriptor sets, textures, staging map and unmap, `transfer_buffer`, destructors, viewport and scissor commands. These are foreign calls; staged contents are modelled as the values transferred.
- Floating-point math is not modelled: model and centre matrices, camera matrices, the recentring offsets, `as_fp` conversions. Matrices are opaque values; chunk placement keeps only its integer multiples of `cd - 1`.
- The Perlin noise and noise.cpp's rounding are parameters (`Perlin01`, `Quantize`), because their bodies are a separate library.
- `heightmap::collision_shape` is not modelled: it wraps a Bullet shape.
- The path constructor that heightmap.hpp declares is not modelled. heightmap.hpp and heightmap.cpp are different revisions: the model follows heightmap.cpp's `size_t` constructor and its `scaling_`, which the header lacks.
- terrain_renderer.cpp is an older revision than terrain_renderer.hpp. The model follows the .cpp (constructor from the heightmap, one index buffer, one draw per frame).
- The chunked renderer in terrain_renderer.hpp is not modelled: its constructor, per-chunk `draw` and the LOD index builder `fill_index_buffer` have no body shown. `SoilTerrain.Terrain.Draw` records the calls made on it. `lod_levels()` returns the lod of the last entry of `index_buffers_`; that list is filled by `fill_index_buffer`, so `lod_levels()` is a parameter of `DrawImgui`.
- Foreign calls in the two constructors are assumed to succeed: `create_buffer`, `load_texture` and the pipeline build in terrain_renderer.cpp, and `create_buffer` and the chunked renderer's constructor in terrain.cpp. The `Create` methods fail only where a modelled narrowing fails.
- `soil::terrain::update` is not modelled, because it only forwards to that chunked renderer.
- `cppext::cycled_buffer` is not shown. The frame slots are modelled by `CyclicStack` with cycle length and size both `image_count`, which is the call the constructor makes; only `cycle()`, the current slot and `as_span()` are used.
- `SoilTerrainRenderer.TerrainRenderer.Create`: computes the counts and the index values in unbounded integers, so the size_t wrap of `d*d` for d ≥ 2^32 is not modelled. The one wrap that matters at small sizes, dimension 0, is under Findings.
- `CppextNumeric.Narrow16` and `CppextNumeric.Narrow32`: cppext_numeric.hpp is not part of this model. That a failed `cppext::narrow` throws, and that a successful one keeps the value, is an assumption taken from how the call sites use it.
- `SoilNoise.Generate2dNoise` and `SoilHeightmap.Heightmap.constructor`: `dimension * dimension` is computed in unbounded integers. The size_t wrap of that product for dimensions of 2^32 or more (noise.cpp:16, heightmap.cpp:18) is not modelled.
- `CppextCyclicStack.CyclicStack.Pop`: after the move, the last element is modelled as keeping its value. For a non-trivially-copyable `T` it is a moved-from object. This is exact for the unit test's `int`.
- `CppextCyclicStack.CyclicStack.Emplace`: takes the constructed element as a value instead of constructor arguments.
- `SoilTerrain.Terrain.DrawImgui`: models a drag only. Typed (ctrl-click) input, which ImGui does not clamp by default, is not modelled.
- The cyclic stack's `push` by const reference and by rvalue are one `Push`, because both append the same value.
- ImGui window calls and `draw_imgui` of the renderers are not modelled: they are UI side effects with no state in the model.

## Findings

| source | as written | input that shows it | evidently intended | confidence | as-written member | corrected member |
|---|---|---|---|---|---|---|
| src/soil/src/terrain_renderer.cpp:191-266 | `index_count_` and the index loop bound use `heightmap.dimension() - 1` in size_t, which wraps for an empty heightmap | dimension 0: `index_count_` is 6, and row 0 writes quads 1 to 65534 (indices x, x+1, all valid uint16) from entry 6 on, past the 12-byte buffer, before quad 65535 throws | an empty grid has no quads: index count 0 and no loop iterations | not executed | SoilTerrainRenderer.EmptyHeightmapOverrunsIndexRegion | SoilTerrainRenderer.FillIndices |
