/** `siv::BasicPerlinNoise<float>`, the noise library that heightmap.cpp and noise.cpp both
    sample; its body is outside the model, so the generator is a parameter of this type. */
module SivPerlin {
  /** noise2D_01 of the Perlin generator seeded with its first argument, at point (x, y).
      Being a Dafny function it is deterministic: equal arguments give equal results. */
  type Perlin01 = (nat, real, real) -> real
}
