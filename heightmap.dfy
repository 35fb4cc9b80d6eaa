/** `soil::heightmap`: a square grid of height samples built once from Perlin noise and read
    through const accessors only. Float samples are carried as `real` values that the model
    never computes with; the Perlin generator is a parameter standing for
    `siv::BasicPerlinNoise<float>::noise2D_01` under a given seed. */
module SoilHeightmap {
  import opened Grids
  import opened SivPerlin

  /** The fixed seed of the heightmap's generator. */
  const Seed: nat := 123456

  datatype Vec3 = Vec3(x: real, y: real, z: real)

  /** The sample the constructor computes for grid point (x, y): zero at the centre point
      (d/2, d/2), Perlin noise at the lattice point (x, y) everywhere else. */
  function Sample(noise: Perlin01, d: nat, x: nat, y: nat): real
  {
    if y != d / 2 || x != d / 2 then noise(Seed, x as real, y as real) else 0.0
  }

  /** All d*d samples, in row-major order. */
  function Samples(noise: Perlin01, d: nat): seq<real>
  {
    RowMajor(d, (x: nat, y: nat) => Sample(noise, d, x, y))
  }

  /** The centre sample of a non-empty heightmap is 0. */
  lemma CentreSampleIsZero(noise: Perlin01, d: nat)
    requires d > 0
    ensures Slot(d, d / 2, d / 2) < |Samples(noise, d)|
    ensures Samples(noise, d)[Slot(d, d / 2, d / 2)] == 0.0
  {
    RowMajorAt(d, (x: nat, y: nat) => Sample(noise, d, x, y), d / 2, d / 2);
  }

  /** Every other sample is the seeded Perlin noise at its own lattice point. */
  lemma OtherSamplesAreNoise(noise: Perlin01, d: nat, x: nat, y: nat)
    requires x < d && y < d && (x, y) != (d / 2, d / 2)
    ensures Slot(d, x, y) < |Samples(noise, d)|
    ensures Samples(noise, d)[Slot(d, x, y)] == noise(Seed, x as real, y as real)
  {
    RowMajorAt(d, (x: nat, y: nat) => Sample(noise, d, x, y), x, y);
  }

  /** The fields are `const`: after construction no member can change them, as `soil::heightmap`'s
      const-only public interface with a private assignment operator ensures. */
  class Heightmap {
    const dimension: nat
    const scaling: Vec3
    const data: seq<real>

    /** There are exactly dimension² samples. */
    ghost predicate Valid()
    {
      |data| == dimension * dimension
    }

    /** `heightmap(size_t dimension)`: appends the samples row by row with `push_back`. */
    constructor (dim: nat, noise: Perlin01)
      ensures Valid()
      ensures dimension == dim
      ensures scaling == Vec3(10.0, 5.0, 10.0)
      ensures data == Samples(noise, dim)
    {
      ghost var f := (x: nat, y: nat) => Sample(noise, dim, x, y);
      ghost var target := RowMajor(dim, f);
      var samples: seq<real> := [];
      var y: nat := 0;
      while y != dim
        invariant y <= dim
        invariant |samples| == Slot(dim, 0, y) <= |target|
        invariant samples == target[..|samples|]
      {
        var x: nat := 0;
        while x != dim
          invariant x <= dim
          invariant |samples| == Slot(dim, x, y) <= |target|
          invariant samples == target[..|samples|]
        {
          RowMajorAt(dim, f, x, y);
          if y != dim / 2 || x != dim / 2 {
            samples := samples + [noise(Seed, x as real, y as real)];
          } else {
            samples := samples + [0.0];
          }
          x := x + 1;
        }
        SlotStep(dim, x, y);
        y := y + 1;
      }
      dimension := dim;
      scaling := Vec3(10.0, 5.0, 10.0);
      data := samples;
    }

    /** `value(x, y)`: the sample of grid point (x, y), which is `data()[y*dimension() + x]`. */
    function Value(x: nat, y: nat): (r: real)
      requires Valid() && x < dimension && y < dimension
      ensures Slot(dimension, x, y) < |data| && r == data[Slot(dimension, x, y)]
    {
      SlotCoordinates(dimension, x, y);
      data[y * dimension + x]
    }
  }

  /** For a heightmap built from `noise`, `value(x, y)` is the sample computed for (x, y). */
  lemma ValueIsSample(h: Heightmap, noise: Perlin01, x: nat, y: nat)
    requires h.Valid() && h.data == Samples(noise, h.dimension)
    requires x < h.dimension && y < h.dimension
    ensures h.Value(x, y) == Sample(noise, h.dimension, x, y)
  {
    RowMajorAt(h.dimension, (x: nat, y: nat) => Sample(noise, h.dimension, x, y), x, y);
  }
}
