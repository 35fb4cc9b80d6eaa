/** `soil::generate_2d_noise`: fills the first dimension² bytes of the caller's buffer, row by
    row, with Perlin noise sampled at lattice coordinates divided by 50 and scaled to a byte. */
module SoilNoise {
  import opened CppextNumeric
  import opened Grids
  import opened SivPerlin

  /** The fixed seed of the noise generator. */
  const NoiseSeed: nat := 123456
  /** Lattice coordinates are divided by this before the noise is evaluated. */
  const DivFactor: real := 50.0

  /** `static_cast<std::byte>(round(v * 255))`: the float rounding is foreign to the model. */
  type Quantize = real -> uint8

  /** The byte written for cell (i, j); it depends on i and j only. */
  function NoiseByte(noise: Perlin01, quantize: Quantize, i: nat, j: nat): uint8
  {
    quantize(noise(NoiseSeed, i as real / DivFactor, j as real / DivFactor))
  }

  /** The dimension² bytes the function produces, in row-major order. */
  function NoiseImage(noise: Perlin01, quantize: Quantize, d: nat): seq<uint8>
  {
    RowMajor(d, (i: nat, j: nat) => NoiseByte(noise, quantize, i, j))
  }

  /** Cell j*d + i of the output holds the byte for (i, j), whatever the buffer held before. */
  lemma NoiseCellAt(noise: Perlin01, quantize: Quantize, d: nat, i: nat, j: nat)
    requires i < d && j < d
    ensures Slot(d, i, j) < |NoiseImage(noise, quantize, d)|
    ensures NoiseImage(noise, quantize, d)[Slot(d, i, j)] == NoiseByte(noise, quantize, i, j)
  {
    RowMajorAt(d, (i: nat, j: nat) => NoiseByte(noise, quantize, i, j), i, j);
  }

  /** `generate_2d_noise(output, dimension)`: the buffer must hold at least dimension² bytes
      (an `assert` in the function demands it); those are overwritten, the rest are left as they were. */
  method Generate2dNoise(output: array<uint8>, d: nat, noise: Perlin01, quantize: Quantize)
    requires output.Length >= d * d
    modifies output
    ensures output[..d * d] == NoiseImage(noise, quantize, d)
    ensures output[d * d..] == old(output[d * d..])
  {
    ghost var f := (i: nat, j: nat) => NoiseByte(noise, quantize, i, j);
    ghost var target := RowMajor(d, f);
    var j: nat := 0;
    while j != d
      invariant j <= d
      invariant Slot(d, 0, j) <= |target|
      invariant output[..Slot(d, 0, j)] == target[..Slot(d, 0, j)]
      invariant output[d * d..] == old(output[d * d..])
    {
      var i: nat := 0;
      while i != d
        invariant i <= d
        invariant Slot(d, i, j) <= |target|
        invariant output[..Slot(d, i, j)] == target[..Slot(d, i, j)]
        invariant output[d * d..] == old(output[d * d..])
      {
        RowMajorAt(d, f, i, j);
        output[j * d + i] := quantize(noise(NoiseSeed, i as real / DivFactor, j as real / DivFactor));
        i := i + 1;
      }
      SlotStep(d, i, j);
      j := j + 1;
    }
  }
}
