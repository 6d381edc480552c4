# GPU particle simulation core, modelled in Dafny

This project models the deterministic logic inside a three.js/WebGL particle
demo whose particle state lives in floating-point textures:

- **Texture sizing and the state buffer** (`GPUSimulation`).
  `getNextPowerOfTwo` rounds up to a power of two. `getTextureDimensionsPot`
  picks the most nearly square power-of-two rectangle that holds `n` items.
  `initializeTextureSource` fills an RGBA float buffer with one 4-channel
  record per pixel: three random channels and a 1. `update(dt)` accumulates
  time and draws the simulation scene.
- **Ping-pong render targets** (`PingPongRendertarget`). The class owns two
  equally sized targets. Each `pass` draws a full-screen quad with the given
  material into `rts[pingpong]`, then resets the renderer's target to null,
  flips `pingpong` and returns the texture it just wrote.
- **Point-cloud lookup coordinates** (`GPURenderSimulation`). Particle `i`
  samples the state pixel at column `i % w` and row `floor(i / w)`, normalised
  to `(col / w, row / h)`. Every vertex position is (0, 0, 0); `update`
  re-binds the simulation's current positions texture.

Modules:

- `Three` (`three.dfy`): stand-ins for the three.js objects. Textures,
  materials and render targets are handles whose identity is all that is
  modelled. The renderer is its current render target plus a ghost log of
  the draws it executed.
- `TextureSizing` (`texture_sizing.dfy`): the two sizing functions, over
  naturals.
- `GPUSimulation` (`gpu_simulation.dfy`): the buffer-fill loop and the class
  `Simulation`, which has the `time` field.
- `PingPong` (`ping_pong_rendertarget.dfy`): the class `PingPongRendertarget`.
- `GPURenderSimulation` (`gpu_render_simulation.dfy`): the lookup coordinates
  and the class `RenderSimulation`.

The sizing functions are modelled as the integer functions the floating-point
expressions are meant to compute:

- `Math.pow(2, Math.ceil(Math.log(v) / Math.log(2)))` becomes
  `Pow2(CeilLog2(v))`.
- `getNextPowerOfTwo(Math.sqrt(n))` becomes the least power of two `m` with
  `m * m >= n`.
- `potMajor === potMinor` becomes `potMinor * potMinor == NextPowerOfTwo(n)`.
  `potMajor` is the square root of `NextPowerOfTwo(n)`, and both values are
  positive, so the two comparisons agree.

With `k = ceil(log2 n)`, the result is the square `(2^(k/2), 2^(k/2))` when
`k` is even. When `k` is odd it is `(2^((k+1)/2), 2^((k-1)/2))`. In both cases
`w * h` is exactly the next power of two at or above `n`.

Inputs the core reads from its environment are parameters:

- `Math.random()` is a sequence of reals, consumed three per pixel in call
  order.
- The iOS user-agent test is a boolean.
- The output of a simulation step is the texture passed to `Update`.

## Model

| member | source | states |
|---|---|---|
| `TextureSizing.CeilLog2` | lib/vuegl/gpu/sim/GPUSimulation.ts:116 | the exponent `Math.ceil(Math.log(v)/Math.log(2))`: 2^k >= v, and 2^(k-1) < v when k > 0 |
| `TextureSizing.CeilLog2Least` | lib/vuegl/gpu/sim/GPUSimulation.ts:116 | every exponent whose power reaches v is at least CeilLog2(v) |
| `TextureSizing.NextPowerOfTwo` | lib/vuegl/gpu/sim/GPUSimulation.ts:114-117 | the result is a power of two (by the halving definition) with v <= r < 2v |
| `TextureSizing.NextPowerOfTwoIsLeast` | lib/vuegl/gpu/sim/GPUSimulation.ts:114-117 | no power of two that is at least v is smaller than NextPowerOfTwo(v) |
| `TextureSizing.NextPowerOfTwoOfSqrt` | lib/vuegl/gpu/sim/GPUSimulation.ts:107 | potMinor is the least power of two not below sqrt(n): m*m >= n, and (m/2)*(m/2) < n when m >= 2 |
| `TextureSizing.CandidateExponents` | lib/vuegl/gpu/sim/GPUSimulation.ts:106-108 | potMajor squared is 2^k, potMinor is 2^ceil(k/2), and potMinor squared equals 2^k exactly when k is even |
| `TextureSizing.CandidateBranches` | lib/vuegl/gpu/sim/GPUSimulation.ts:106-109 | either the candidates agree, or potMinor is even, half of it is a power of two, and potMinor * potMinor/2 is the next power of two |
| `TextureSizing.TextureDimensionsPot` | lib/vuegl/gpu/sim/GPUSimulation.ts:104-112 | width and height are powers of two, width == height or width == 2*height, width*height == NextPowerOfTwo(n), and n <= width*height < 2n |
| `TextureSizing.TextureDimensionsByParity` | lib/vuegl/gpu/sim/GPUSimulation.ts:106-109 | the square branch is taken exactly when ceil(log2 n) is even; the result is (2^(k/2), 2^(k/2)) or (2^((k+1)/2), 2^((k-1)/2)) |
| `TextureSizing.TextureDimensionsMostNearlySquare` | lib/vuegl/gpu/sim/GPUSimulation.ts:102-112 | no power-of-two rectangle holding n items has a smaller area, and among those of equal area with a >= b none has a smaller long side |
| `TextureSizing.TextureDimensionsExamples` | lib/vuegl/gpu/sim/GPUSimulation.ts:104-117 | getNextPowerOfTwo(1) == 1; sizes 1 -> (1,1), 5 -> (4,2), 16 -> (4,4), 8192 -> (128,64) |
| `GPUSimulation.InitialState` | lib/vuegl/gpu/sim/GPUSimulation.ts:82-89 | the buffer the fill loop produces for w*h pixels has exactly 4*w*h entries |
| `GPUSimulation.InitialStatePixel` | lib/vuegl/gpu/sim/GPUSimulation.ts:84-89 | pixel p holds the three random values drawn for it, in order, then 1 |
| `GPUSimulation.XyzChannelsOfInitialState` | lib/vuegl/gpu/sim/GPUSimulation.ts:84-88 | reading channels 0 to 2 of every pixel back gives the whole random stream |
| `GPUSimulation.InitialStateInUnitRange` | lib/vuegl/gpu/sim/GPUSimulation.ts:84-89 | with random values in [0,1), every channel 3 is 1 and channels 0 to 2 lie in [0,1) |
| `GPUSimulation.InitializeTextureSource` | lib/vuegl/gpu/sim/GPUSimulation.ts:74-100 | the texture is TextureDimensionsPot(particleCount); the buffer is fresh, 4*w*h long and filled for every pixel, padding pixels included |
| `GPUSimulation.SumAppend` | lib/vuegl/gpu/sim/GPUSimulation.ts:50-51 | appending dt to the delta history adds exactly dt to the total |
| `GPUSimulation.Simulation.constructor` | lib/vuegl/gpu/sim/GPUSimulation.ts:40-72 | time starts at 0 with no deltas; the state texture is the initial buffer over the computed dimensions |
| `GPUSimulation.Simulation.Update` | lib/vuegl/gpu/sim/GPUSimulation.ts:50-54 | time grows by exactly dt and stays the sum of all deltas; one draw of the simulation material into the unchanged current target |
| `PingPong.PingpongAfter` | lib/vuegl/gpu/sim/PingPongRendertarget.ts:38-61 | `pingpong` after n passes (0 initially, flipped by each pass) is always 0 or 1 |
| `PingPong.PingpongAfterIsParity` | lib/vuegl/gpu/sim/PingPongRendertarget.ts:61 | after n passes `pingpong == n % 2` |
| `PingPong.PingPongRendertarget.constructor` | lib/vuegl/gpu/sim/PingPongRendertarget.ts:37-84 | two distinct fresh targets with distinct textures, both size.x by size.y with the same options: nearest filtering, RGBA, no depth buffer, no mipmaps, and half-float texels exactly when the device is iOS (float otherwise); the device flag is kept and `Valid()` ties both targets' options to it, so every pass preserves the precision chosen at setup; the quad starts with a fresh default material; pingpong is 0 and no pass has run |
| `PingPong.PingPongRendertarget.Pass` | lib/vuegl/gpu/sim/PingPongRendertarget.ts:51-65 | draws the quad with the given material into rts[old pingpong] and returns its texture; that texture is not the next pass's write target; pingpong flips and equals passes mod 2; the renderer's target is null on return; rts is unchanged |
| `GPURenderSimulation.ColumnRowOfIndex` | lib/vuegl/gpu/sim/GPURenderSimulation.ts:65-66 | for `Column(i, w) = i % w` and `Row(i, w) = floor(i / w)`, the two expressions of these lines: column < w and row*w + column == i |
| `GPURenderSimulation.IndexOfPixel` | lib/vuegl/gpu/sim/GPURenderSimulation.ts:65-66 | every pixel (col, row) with col < w is the pixel of index row*w + col, so the mapping is a bijection onto pixels |
| `GPURenderSimulation.RowInRange` | lib/vuegl/gpu/sim/GPURenderSimulation.ts:66 | row < h exactly when i < w*h |
| `GPURenderSimulation.LookupCoordinate` | lib/vuegl/gpu/sim/GPURenderSimulation.ts:63-67 | u in [0,1); v >= 0, and v < 1 exactly when i < w*h; u*w is the column and v*h the row |
| `GPURenderSimulation.LookupCoordinateInjective` | lib/vuegl/gpu/sim/GPURenderSimulation.ts:65-66 | distinct particles get distinct lookup coordinates |
| `GPURenderSimulation.LookupCoordinateExamples` | lib/vuegl/gpu/sim/GPURenderSimulation.ts:65-66 | on a 4x2 texture: 0 -> (0,0), 3 -> (0.75,0), 4 -> (0,0.5) |
| `GPURenderSimulation.DefaultLookupsInRange` | lib/vuegl/gpu/sim/GPURenderSimulation.ts:42-67 | for 8192 particles on the 128x64 texture, every coordinate lies in [0,1)x[0,1) and its RGBA record lies inside the state buffer |
| `GPURenderSimulation.LookupAttribute` | lib/vuegl/gpu/sim/GPURenderSimulation.ts:55-67 | the i2Texture array has exactly 2*count entries |
| `GPURenderSimulation.LookupAttributeAt` | lib/vuegl/gpu/sim/GPURenderSimulation.ts:63-67 | entries 2i and 2i+1 are particle i's u and v (`setXY`) |
| `GPURenderSimulation.SimulationHandle.Update` | lib/vuegl/gpu/sim/GPURenderSimulation.ts:91 | one simulation step; the positions texture becomes the step's output |
| `GPURenderSimulation.RenderSimulation.constructor` | lib/vuegl/gpu/sim/GPURenderSimulation.ts:40-87 | the position array has 3*8192 entries, all 0; the i2Texture array has 2*8192 entries, particle i's coordinate at 2i and 2i+1; the uniform is the simulation's texture and uSize is 25 |
| `GPURenderSimulation.RenderSimulation.Update` | lib/vuegl/gpu/sim/GPURenderSimulation.ts:90-93 | first advances the simulation by one step, then binds its new positions texture; uSize and the attribute arrays are unchanged |

## Left out

- Floating-point behaviour. `Math.log`, `Math.sqrt`, `Math.pow` and the `===`
  comparison at lib/vuegl/gpu/sim/GPUSimulation.ts:108 are replaced by the
  exact integer values they are meant to compute.
- `GPUSimulation.InitialStateInUnitRange`: buffer entries are exact reals.
  Storing a `Math.random()` value close to 1 into a `Float32Array` can round
  it up to 1.0. That rounding is not modelled.
- Sizing with `n = 0`. The code does not validate its input, and `log(0)`
  would give a degenerate texture. The model requires `n >= 1`.
- The three.js objects are reduced to handles: scenes, cameras, meshes,
  `PlaneBufferGeometry`, `BufferGeometry`, `Points`, `RawShaderMaterial` and
  `DataTexture`. This covers the `DataTexture` format, type and filter
  settings, `needsUpdate`, the `uPositionsMap` uniform and `sceneRT.add(quad)`.
  The GLSL shaders are not part of this model.
- What `renderer.render` computes on the GPU. A draw is logged as the pair
  (target, material).
- iOS detection from the user agent
  (lib/vuegl/gpu/sim/PingPongRendertarget.ts:69). It is a boolean parameter.
- The empty `PingPongRendertarget.update()`
  (lib/vuegl/gpu/sim/PingPongRendertarget.ts:49).
- What the renderer's simulation object actually is.
  lib/vuegl/gpu/sim/GPURenderSimulation.ts uses a three-argument
  constructor, `textureDimensions`, `positionsTexture` and an argument-less
  `update()`, and GPUSimulation.ts defines none of them. `SimulationHandle`
  stands for that object: its dimensions are any w, h >= 1, and the texture
  a step produces is a parameter of `Update`. The `clock` argument is
  dropped.
- lib/vuegl/scenes/MainScene.ts and lib/vuegl/scenes/TerrainScene.ts. They
  are animation-frame loops, orbit controls and scene setup.
- A velocity-then-position pipeline over two ping-pong buffers. The files do
  not contain one.
