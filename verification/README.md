# Particle-state layout of the WebGL particle demos

The demos keep every particle's state on the GPU. The state lives in a square
RGBA float texture, and a static vertex buffer (the *index buffer*) gives each
particle the texture coordinate of its texel. A render pass draws one point
per particle and uses that coordinate to fetch the particle's state. This
project models how that state is laid out and proves that it is consistent:

- `Layout` (`layout.dfy`): the integer square root that sizes the texture
  (`Math.sqrt(count)` on a perfect square). It also holds the ordinal <->
  (column, row) map of a `side x side` grid, proved to be a bijection.
- `DataTexture` (`texture.dfy`): a `dimension x dimension` RGBA/FLOAT texture
  as `makeDataTexture` uploads it. The flat array is read row-major, four
  floats per texel. Lookups use NEAREST filtering and CLAMP_TO_EDGE, the
  parameters `makeDataTexture` sets.
- `IndexBuffer` (`index.dfy`): `generateParticleIndex`. For ordinal `i` it
  stores `((i mod side) / side, (i div side) / side)` at offsets `2i` and
  `2i + 1`. Sampling the texture at that coordinate returns the block at
  offset `4i`.
- `Sampling` (`sampling.dfy`): `Math.random()` is replaced by a
  caller-supplied sequence of samples in `[0, 1)`, read in call order.
- `SpriteDemo` (`sprite.dfy`): `main.js`, with 1024 particles on a 32 x 32
  texture. A texel holds (x, y, point size, 0), and three samples are drawn
  per particle.
- `Particles` (`particles.dfy`): `modules/particle.js`, with `2048 ** 2`
  particles on a 2048 x 2048 texture. A texel holds (x, y, vx = 0, vy = 0),
  and two samples are drawn per particle.

The texture-coordinate scaling is modelled with exact `real` arithmetic. For
the two sizes the code uses, 32 and 2048, `1 / side` is a power of two. Every
index entry `k / side` with `k < side` is then exact in single precision too,
so the model and the `Float32Array` agree on the index buffer.

`generateParticleIndex` appears twice in the source. Apart from WebGL buffer
binding, the copies differ only in where the count comes from. `IndexBuffer.GenerateParticleIndex` models the
loop once. `Particles.GenerateParticleIndex` calls it with `NUM_PARTICLES`.

## Model

| member | source | states |
|---|---|---|
| Layout.Sqrt | main.js:73 | the row length is the integer `s` with `s*s <= count < (s+1)*(s+1)` |
| Layout.SqrtOfSquare | main.js:213-217 | on a perfect square `s*s` the root is exactly `s`, so the texture dimension `Math.sqrt(particles)` is that `s` |
| Layout.IsSquareIffSomeRoot | main.js:73 | `IsSquare(n)`, the condition the generators need, holds exactly when `n` is the square of some natural |
| Layout.TexelOf | main.js:81-83 | particle `i` sits at a column below `side`, and `row * side + column == i` |
| Layout.TexelOfInGrid | main.js:77-84 | every ordinal below `side*side` lands inside the `side x side` grid, and its row-major position is the ordinal again |
| Layout.TexelOfOrdinalOf | main.js:81-83 | splitting a grid texel's row-major position into column and row gives that texel back |
| Layout.TexelOfInjective | main.js:77-84 | two ordinals mapped to the same texel are equal |
| Layout.TexelOfSurjective | main.js:77-84 | every texel of the grid is the texel of some ordinal below `side*side` |
| Layout.TexelOfImageIsGrid | main.js:62-84 | the set of texels of ordinals `0 .. side*side-1` is exactly the set of texels of the grid |
| DataTexture.FetchRowMajor | main.js:13-23 | in an RGBA/FLOAT upload filled row-major, texel `(k mod dim, k div dim)` holds the four floats at offset `4k` |
| DataTexture.Fetch | main.js:13-23 | texel `(col, row)` of an RGBA/FLOAT upload is the four floats at offset `4 * (row * dim + col)` of the flat array |
| DataTexture.Sample | main.js:25-31 | a NEAREST lookup returns the texel whose square contains `(u * dim, v * dim)`, and always some texel of the texture |
| DataTexture.NearestTexelContains | main.js:25-27 | NEAREST filtering selects exactly the grid texel whose square contains `(u * dim, v * dim)` |
| DataTexture.ClampToEdge | main.js:29-31 | a texel index outside the texture is moved to the nearest edge; one inside is unchanged |
| DataTexture.NearestTexel | main.js:25-31 | nearest sampling with clamping always selects a texel inside the texture |
| DataTexture.CornerScalesBack | main.js:75-83 | a coordinate `step * k` with `step = 1 / side` scales back by `side` to exactly `k` |
| DataTexture.CornerInUnit | main.js:75-83 | `step * k` lies in `[0, 1)` whenever `k < side` |
| DataTexture.NearestTexelOfCorner | modules/gl.js:40-43 | sampling at a texel's corner `(col / dim, row / dim)` with NEAREST and CLAMP_TO_EDGE selects that texel |
| IndexBuffer.IndexEntry | main.js:75-83 | particle `i`'s entry is a pair of whole multiples of `1 / side`: scaled back by `side` they give its column `i mod side` and row `i div side`, and the first lies in `[0, 1)` |
| IndexBuffer.GenerateParticleIndex | main.js:69-93 | for a perfect-square count the buffer has `2 * count` floats, and entries `2i`, `2i+1` are `(i mod side) / side` and `(i div side) / side` |
| IndexBuffer.IndexEntryInUnitSquare | main.js:73-83 | both coordinates of every particle's entry lie in `[0, 1)` |
| IndexBuffer.IndexEntryRowMajor | main.js:81-83 | `row * side + column == i` holds of the stored coordinates scaled back by `side` |
| IndexBuffer.IndexEntryNamesTexel | main.js:62-67 | sampling at particle `i`'s entry selects the texel `(i mod side, i div side)` |
| IndexBuffer.IndexEntriesDistinct | main.js:77-84 | different particles get different coordinates |
| IndexBuffer.IndexEntriesCoverGrid | main.js:77-84 | every texel of the texture is selected by some particle's entry |
| IndexBuffer.IndexEntrySamplesParticle | main.js:77-107 | sampling a `side x side` texture at particle `i`'s entry returns the block written at offset `4i` of the data |
| Sampling.ScaleToExtent | main.js:110-113 | a position `Math.random() * extent` lies in `[0, extent)`, and is 0 when the extent is 0 |
| SpriteDemo.PointSize | main.js:116 | the point size is 2, 4, 8 or 16, chosen by which quarter of `[0, 1)` the sample falls in |
| SpriteDemo.SpriteTexel | main.js:107-119 | a particle's texel has x in `[0, width)`, y in `[0, height)`, size in {2, 4, 8, 16} and a zero fourth channel |
| SpriteDemo.GenerateParticleData | main.js:102-123 | the data has `4 * count` floats; block `i` is particle `i`'s texel, built from samples `3i`, `3i+1`, `3i+2`, with those channel bounds |
| SpriteDemo.Setup | main.js:189-217 | with 1024 particles the texture is 32 x 32 and filled exactly, and sampling it at any particle's index entry yields that particle's generated texel |
| Particles.NumParticlesIsSquare | modules/particle.js:3-5 | `NUM_PARTICLES_SQRT` is 2048 and its square is `NUM_PARTICLES` |
| Particles.StateTexel | modules/particle.js:57-71 | a particle starts with x in `[0, width)`, y in `[0, height)` and zero velocity |
| Particles.GenerateParticleIndex | modules/particle.js:21-45 | the buffer has `2 * NUM_PARTICLES` floats and is the index buffer of a 2048-wide texture |
| Particles.GenerateParticleData | modules/particle.js:53-74 | the data has `4 * NUM_PARTICLES` floats; block `i` holds the position from samples `2i`, `2i+1` and zero velocity |
| Particles.GenerateParticleDataTexture | modules/particle.js:7-13 | the state texture is 2048 x 2048 and the data fills it exactly |
| Particles.IndexNamesState | modules/particle.js:25-58 | sampling the state texture at particle `i`'s index entry yields particle `i`'s generated position and velocity |

## Left out

- WebGL calls are left out: texture, buffer, shader and program creation, uniform and attribute binding, blending, `drawArrays`, `render`, `main`'s canvas set-up and `makeGL`. They are calls into the GPU driver, whose behaviour the source does not show. Only the texture shape, its row-major RGBA/FLOAT layout and its NEAREST/CLAMP_TO_EDGE sampling are modelled.
- `makeTexture` (image loading), `getShader`/`getProgram` (shader compilation) and `getQuadBuffer` are left out because they are asynchronous I/O or driver calls.
- `util.random` is left out. It is a float wrapper over `Math.random`, and the generators call `Math.random` directly.
- Randomness is left out: `Math.random()` becomes the `samples` input, each value in `[0, 1)`.
- The physics, copy and render shaders are left out. They, the force laws and the frame loop are not part of this model.
- Layout.Sqrt: models `Math.sqrt` only on perfect squares, where it is exact. For other counts `Math.sqrt` returns a non-integer row length. The generators require `IsSquare(count)` because the code assumes that without checking.
- Non-square counts are not rejected: the code never checks that `count` is a perfect square, so the model states it as the precondition `IsSquare(count)`.
- Float32 rounding is left out. The stored values are exact reals. This matters only for positions: `Math.random() * width` rounded to single precision can reach `width` itself. The stated bound `x < width` holds of the exact product.
- The texel-center convention is left out. The entries name texel corners `k / side`, not centers `(k + 0.5) / side`. Under exact arithmetic, nearest sampling at a corner selects that texel, and that is what is proved.
