# Fluid simulation host side, modelled in Dafny

The model covers the CPU side of a GPU particle fluid simulation (smoothed particle hydrodynamics). Three
parts of it are modelled:

- **`Simulation`**: an arena of particle slots held in two storage buffers, one for positions and one for
  velocities, plus a live count and a capacity.
  - `Init` seeds the first particles on a lattice with a side of about `sqrt(n)` and loads four compute
    kernels.
  - `UpdateParticleCount` grows the count, filling the new slots with randomly sampled points, or
    shrinks it.
  - `Update` issues one frame: four compute passes (grid clear, grid count, density, force), each
    followed by a memory barrier.
- **`Shader`**: splits a combined render-shader file into vertex and fragment sections (`parseShader`).
  It picks the compute or render path from the file name, and any failure leaves the program name at 0.
- **`Renderer`**: builds the circle mesh every particle is drawn with (`ComputeCircleVertices`) and
  issues one instanced triangle-fan draw per frame.

Modules:

- `Numerics`: `glm::vec2`, floats with NaN and infinity, and the integer square root.
- `SimulationConfig`: the constants and parameter defaults of `Simulation.h`.
- `ParticleStore`: the particle store as values, with `Resize` (the rule of `UpdateParticleCount`) and
  the seeding lattice.
- `FluidSimulation`: the class `Simulation` over two arrays. Its methods are proved against
  `ParticleStore`, and a frame is returned as a list of `Command`s.
- `Shaders`: line routing, path dispatch and program creation, and the class `Shader`.
- `Rendering`: the circle mesh and the class `Renderer`.

Things outside the program are parameters:

- The graphics driver is a `Gl` record: what a compilation returns, the program name `glCreateProgram`
  hands out, and whether linking succeeds. `Simulation.Init` takes one such record per kernel
  (`gl: nat -> Gl`, the driver when the k-th kernel is constructed), so each kernel that calls
  `glCreateProgram` gets its own name.
- The file system is a `FileSystem` map from paths to optional text.
- Buffer names are `BufferNames`, or `vao`/`vbo` numbers for the renderer.
- The random sampler is `draw: nat -> Vec2`, giving the k-th sampled point.
- `cosf`/`sinf` are a `Trig` record.

Two things the code does not do, which the model follows:

- `Init` does not clamp an initial particle count above the capacity, so the model requires
  `initialParticles <= maxParticles`. Only `UpdateParticleCount` clamps, and only from above.
- No parameter is validated: a non-positive smoothing radius or mass is accepted, since the parameters
  are plain public fields.

## Model

| member | source | states |
|---|---|---|
| `Numerics.FloorSqrt` | FluidSimulation/src/Simulation.cpp:28 | the column count is positive for a positive particle count |
| `Numerics.FloorSqrtBounds` | FluidSimulation/src/Simulation.cpp:28 | the column count `c` is the square root rounded down: `c*c <= n < (c+1)*(c+1)` |
| `SimulationConfig.DefaultParams` | FluidSimulation/src/Simulation.h:25-36 | every default parameter (radius, mass, viscosity, rest density, stiffness, ...) is positive |
| `SimulationConfig.GridCellCount` | FluidSimulation/src/Simulation.h:53-54 | the counting grid has 64 x 64 = 4096 cells |
| `ParticleStore.Overwrite` | FluidSimulation/src/Simulation.cpp:157-160 | a sub-data write replaces exactly the slots `[offset, offset+len)` with the data and keeps every other slot and the length |
| `ParticleStore.ClampCount` | FluidSimulation/src/Simulation.cpp:139 | the settled count is at most the capacity and at most the request, and equals one of them |
| `ParticleStore.Draws` | FluidSimulation/src/Simulation.cpp:150-154 | the new positions are the first `numToAdd` samples, in sampling order |
| `ParticleStore.Zeros` | FluidSimulation/src/Simulation.cpp:144 | the new velocities are `numToAdd` zero vectors |
| `ParticleStore.Resize` | FluidSimulation/src/Simulation.cpp:137-168 | keeps the store valid and its capacity; the count becomes the clamped request; a request equal to the count changes nothing; the slots between the old and new count hold the samples with zero velocity; every other slot is unchanged |
| `ParticleStore.ShrinkOnlyLowersCount` | FluidSimulation/src/Simulation.cpp:137-166 | a request that does not raise the count writes no buffer: only the count changes |
| `ParticleStore.GrowthWritesTail` | FluidSimulation/src/Simulation.cpp:141-166 | growth equals writing the samples and the zero velocities at the old count, then setting the clamped count |
| `ParticleStore.GrowthSeedsDisc` | FluidSimulation/src/Simulation.cpp:150-154 | if the sampler only yields points of the radius-0.2 disc, every added particle lies in the disc and is at rest |
| `ParticleStore.RegrowthReseeds` | FluidSimulation/src/Simulation.cpp:141-166 | shrinking and then growing back keeps the surviving prefix and replaces the dropped slots with fresh samples |
| `ParticleStore.LatticeCell` | FluidSimulation/src/Simulation.cpp:33-34 | the column is below the column count and `row*columns + col` gives back the particle index |
| `ParticleStore.LatticeOffset` | FluidSimulation/src/Simulation.cpp:30 | the offset is non-negative for a non-empty lattice |
| `ParticleStore.LatticeCentred` | FluidSimulation/src/Simulation.cpp:30-35 | the first and the last column sit at opposite `x`: the lattice is centred on the origin |
| `ParticleStore.LatticePosition` | FluidSimulation/src/Simulation.cpp:29-35 | a seeded position lies within the centred columns `[-o, o]` and no lower than the first row `-o` |
| `ParticleStore.LatticeNextRow` | FluidSimulation/src/Simulation.cpp:33-35 | particle `i + columns` sits in the same column as particle `i`, one spacing higher |
| `ParticleStore.CellUnique` | FluidSimulation/src/Simulation.cpp:33-34 | a column below the column count and a row that spell the index are its cell (the cell is unique) |
| `ParticleStore.LatticeCellsDistinct` | FluidSimulation/src/Simulation.cpp:32-35 | two different particles get different cells |
| `ParticleStore.LatticePositionsDistinct` | FluidSimulation/src/Simulation.cpp:32-35 | two different particles are seeded at different positions |
| `ParticleStore.LatticeRows` | FluidSimulation/src/Simulation.cpp:28-34 | with `sqrt(n)` columns the `n` seeded particles use at most `sqrt(n)+2` rows |
| `ParticleStore.LatticeBounds` | FluidSimulation/src/Simulation.cpp:28-35 | each seeded position lies in the box `[-o,o] x [-o, o+2*spacing]` with `o` the centring offset |
| `FluidSimulation.GroupCount` | FluidSimulation/src/Simulation.cpp:89 | `(n+127)/128` groups of 128 cover all `n` items, and one group fewer would not |
| `FluidSimulation.ClampDeltaTime` | FluidSimulation/src/Simulation.cpp:110 | the step passed to the force pass is at most 0.008 and at most the frame time, and equals one of them |
| `FluidSimulation.KernelsOfPass` | FluidSimulation/src/Simulation.cpp:78-81 | a dispatch followed by its barrier runs exactly that kernel |
| `FluidSimulation.KernelsAppend` | FluidSimulation/src/Simulation.cpp:76-135 | the kernels of consecutive passes run in sequence |
| `FluidSimulation.Simulation.GetMaxParticles` | FluidSimulation/src/Simulation.h:22 | on a valid store the reported capacity is the size of both particle buffers |
| `FluidSimulation.Simulation.GetParticleCount` | FluidSimulation/src/Simulation.h:21-22 | on a valid store the reported count never exceeds the reported capacity |
| `FluidSimulation.Simulation.constructor` | FluidSimulation/src/Simulation.cpp:8-12 | no capacity, no particles, all buffer names 0, no programs, default parameters |
| `FluidSimulation.Simulation.Init` | FluidSimulation/src/Simulation.cpp:19-74 | capacity and count are set; both buffers are fresh, sized to the capacity, and seeded with the lattice at rest; the buffer names are recorded and the four buffer getters report them; each kernel is the program loaded from its `.comp` path with the driver at its own construction; its frame leaves the parameters untouched |
| `FluidSimulation.Simulation.SeedBuffers` | FluidSimulation/src/Simulation.cpp:20-49 | both buffers hold `maxParticles` slots and the first `initialParticles` hold the lattice and zero velocities |
| `FluidSimulation.Simulation.LoadKernels` | FluidSimulation/src/Simulation.cpp:70-73 | all four kernel programs exist; the k-th is the program its path loads to with the driver at the k-th construction |
| `FluidSimulation.KernelProgramsDistinct` | FluidSimulation/src/Simulation.cpp:70-73 | the kernels that load hold distinct programs when `glCreateProgram` never hands out the name of a live program |
| `FluidSimulation.InitialLattice` | FluidSimulation/src/Simulation.cpp:24-36 | the loop fills particle `i` with the lattice position of its cell, for every `i < n` |
| `FluidSimulation.SamplePositions` | FluidSimulation/src/Simulation.cpp:150-154 | the loop fills new position `k` with the k-th sample, for every `k < numToAdd` |
| `FluidSimulation.AllocateBuffer` | FluidSimulation/src/Simulation.cpp:42-43 | a fresh buffer of `capacity` slots whose prefix is the initial data |
| `FluidSimulation.WriteRegion` | FluidSimulation/src/Simulation.cpp:157-160 | writing a region of an array in place leaves exactly `Overwrite` of the old contents |
| `FluidSimulation.Simulation.UpdateParticleCount` | FluidSimulation/src/Simulation.cpp:137-168 | the buffers and count afterwards are `Resize` of the store before; the store stays valid; a request equal to the count leaves everything as it was |
| `FluidSimulation.Simulation.Update` | FluidSimulation/src/Simulation.cpp:76-135 | a frame is clear, count, density, force; every dispatch is followed by a barrier, and only the last barrier covers vertex attributes; each dispatch covers its items; uniforms as uploaded, with the clamped step |
| `Shaders.ContainsOccurrence` | FluidSimulation/src/Shader.h:39-42 | `Contains` is substring search: it holds exactly when the pattern occurs at some index, as `find != npos` |
| `Shaders.SelectedType` | FluidSimulation/src/Shader.h:41-44 | a selecting header switches to the vertex or the fragment section, and to the vertex one exactly when `vertex` occurs |
| `Shaders.NextType` | FluidSimulation/src/Shader.h:39-44 | a non-header line keeps the section; a selecting header switches to its selected section; a header naming neither keeps the section |
| `Shaders.NewlineIndex` | FluidSimulation/src/Shader.h:38 | the first newline of the text, or its length when there is none |
| `Shaders.SplitLines` | FluidSimulation/src/Shader.h:38 | no line `getline` yields contains a newline |
| `Shaders.JoinSplitRoundTrip` | FluidSimulation/src/Shader.h:38 | the lines `getline` yields, each followed by a newline, give the text back, with a newline added after an unterminated last line |
| `Shaders.ParseShader` | FluidSimulation/src/Shader.h:26-53 | an unopenable file gives three empty sections; the compute section is always empty; the loop computes exactly the routed sections of `ParsedSource` |
| `Shaders.ReadOneMoreLine` | FluidSimulation/src/Shader.h:38-49 | reading one line advances the current section by the header rule and copies that line alone, and only when it is not a header and its section is the target |
| `Shaders.JoinLinesAppend` | FluidSimulation/src/Shader.h:47 | `ss << line << '\n'` appends exactly the line and one newline |
| `Shaders.SplitJoinRoundTrip` | FluidSimulation/src/Shader.h:38-52 | splitting a joined section gives back its lines (the lines hold no newline) |
| `Shaders.SectionsAreRoutedLines` | FluidSimulation/src/Shader.h:38-52 | splitting each returned section gives exactly the file lines routed to it |
| `Shaders.RoutedLinesAreFileLines` | FluidSimulation/src/Shader.h:39-48 | every copied line is a line of the file and never a `#shader` header |
| `Shaders.SelectorFreeKeepsType` | FluidSimulation/src/Shader.h:39-44 | lines that name neither `vertex` nor `fragment` in a header never change the current section |
| `Shaders.PreambleDiscarded` | FluidSimulation/src/Shader.h:36-48 | lines before the first selecting header are dropped, and the rest is routed as if the file started there |
| `Shaders.PreambleRoutesNothing` | FluidSimulation/src/Shader.h:36-48 | a preamble without a selecting header contributes nothing to either section |
| `Shaders.PreambleKeepsType` | FluidSimulation/src/Shader.h:36-44 | after such a preamble the parser is in the same section as at the start of a file |
| `Shaders.RoutedAfterHeader` | FluidSimulation/src/Shader.h:39-48 | after a header naming `vertex` (else `fragment`), a non-header line goes to that section and not to the other |
| `Shaders.ReadFile` | FluidSimulation/src/Shader.h:55-70 | an opened file yields its whole text; the result is empty exactly when the file is missing or empty |
| `Shaders.CreateShader` | FluidSimulation/src/Shader.h:118-150 | the result is 0 or the new program, and it is non-zero exactly when the program name is non-zero, both stages compile and the link succeeds |
| `Shaders.CreateComputeProgram` | FluidSimulation/src/Shader.h:152-177 | the result is 0 or the new program, and it is non-zero exactly when the program name is non-zero, the stage compiles and the link succeeds |
| `Shaders.ComputePathOfStem` | FluidSimulation/src/Shader.h:184 | `stem + ".comp"` takes the compute path exactly when the stem is non-empty |
| `Shaders.IsComputePath` | FluidSimulation/src/Shader.h:184 | a path that takes the compute path is a non-empty stem followed by `.comp` |
| `Shaders.ShaderPathsOfTheProgram` | FluidSimulation/src/Shader.h:184 | the four kernel paths take the compute path; `Basic.shader` and the bare `.comp` take the render path |
| `Shaders.LoadedProgram` | FluidSimulation/src/Shader.h:182-208 | 0 or the new program; 0 for an empty compute file, an unopenable render file, or an empty vertex or fragment section; non-zero only when every stage it compiled compiled |
| `Shaders.ProgramsFromFreshNames` | FluidSimulation/src/Shader.h:120-154 | shaders loaded one after another, each with its own driver, hold distinct programs whenever they load and `glCreateProgram` never hands out the name of an earlier program that loaded |
| `Shaders.Shader.constructor` | FluidSimulation/src/Shader.h:182-208 | the program name is the one `LoadedProgram` describes |
| `Rendering.SegmentAngle` | FluidSimulation/src/Renderer.cpp:78 | with no segments the angle is NaN for `k = 0` (`0.0f/0.0f`) and infinite for `k > 0`; otherwise it is a number |
| `Rendering.Scaled` | FluidSimulation/src/Renderer.cpp:79-80 | a coordinate is NaN exactly when its angle is not a number, and never infinite |
| `Rendering.RimVertex` | FluidSimulation/src/Renderer.cpp:78-83 | a rim vertex is three floats with `z = 0`, whose `x` and `y` are NaN exactly when there are no segments |
| `Rendering.CirclePrefix` | FluidSimulation/src/Renderer.cpp:72-84 | after `m` rounds the buffer holds `m+1` vertices of three floats |
| `Rendering.PrefixStartsAtCentre` | FluidSimulation/src/Renderer.cpp:73-75 | the buffer always starts with the centre `(0,0,0)` |
| `Rendering.PrefixFlat` | FluidSimulation/src/Renderer.cpp:73-83 | every `z` component (index 2 mod 3) is 0 |
| `Rendering.PrefixRim` | FluidSimulation/src/Renderer.cpp:76-83 | rim vertex `k` sits at floats `3k+3 .. 3k+5`, in increasing `k` |
| `Rendering.VertexCount` | FluidSimulation/src/Renderer.cpp:67 | at least one vertex, and `numSegments + 2` for a non-negative segment count |
| `Rendering.CircleSize` | FluidSimulation/src/Renderer.cpp:67-84 | the mesh holds `3 * VertexCount` floats, and `size/3` gives back the vertex count the draw uses |
| `Rendering.CircleShape` | FluidSimulation/src/Renderer.cpp:72-84 | the finished mesh starts at the centre, is flat, and holds rim vertices `0..numSegments` in order |
| `Rendering.NoSegmentsGivesNaN` | FluidSimulation/src/Renderer.cpp:76-83 | with 0 segments the one rim vertex has NaN `x` and `y` |
| `Rendering.InitCircleVertexCount` | FluidSimulation/src/Renderer.cpp:13-67 | the 32-segment mesh has 102 floats, so 34 vertices are drawn |
| `Rendering.Renderer.constructor` | FluidSimulation/src/Renderer.cpp:5 | vertex array and buffer names 0, empty mesh, no program |
| `Rendering.Renderer.ComputeCircleVertices` | FluidSimulation/src/Renderer.cpp:71-85 | the loop leaves exactly `CircleVertices`, which does not depend on the old contents, so they are discarded; the result holds `3 * VertexCount` floats |
| `Rendering.Renderer.Init` | FluidSimulation/src/Renderer.cpp:11-30 | the mesh is the 32-segment, radius-0.01 circle and is uploaded to the vertex buffer; the names are recorded; the program is the one `Basic.shader` loads to |
| `Rendering.Renderer.Render` | FluidSimulation/src/Renderer.cpp:32-70 | draws `size/3 = segments + 2` vertices as `particleCount` instances from vertex 0; attributes 1-4 read position, velocity, density and pressure one value per instance; the program and the two uniforms |

## Left out

- Floating point. Floats are reals, so there is no rounding: `0.008f`, `0.05f`, the centring offset,
  `3.1415926f`, `smoothingRadius * 0.000005f`, and the products in the circle mesh are all exact. The one
  NaN the code can produce (`0.0f / 0.0f` with zero segments) is modelled by `Float.NaN`, and the
  infinite angles a later rim vertex would get with zero segments by `Float.Inf`.
- Integer widths. Counts are unbounded naturals, so these are not modelled:
  - wrap-around of the `unsigned int` counters;
  - the overflow of `(n + 127)` near `2^32`;
  - the `(int)` casts in `UpdateParticleCount` for capacities above `INT_MAX`.
- FluidSimulation.Simulation.UpdateParticleCount: `newCount` must be non-negative. The code has no lower
  clamp, and a negative request would wrap when stored in the unsigned count.
- FluidSimulation.Simulation.Init: it requires `initialParticles <= maxParticles`. The code does not
  check this. With a larger count the two `glBufferSubData` uploads are out of range, so the driver
  raises `GL_INVALID_VALUE` and writes nothing: the buffers stay unseeded while the count exceeds the
  capacity, and the later dispatches and the instanced draw address slots past it. The model does not
  describe that state.
- Randomness: `std::random_device`/`mt19937` are replaced by the sampler parameter `draw`. That the
  samples lie in the radius-0.2 disc is a hypothesis of `GrowthSeedsDisc`, not derived from
  `0.2 * sqrt(u)` with `cos`/`sin`.
- `std::sqrt` on the particle count is modelled as the integer square root `FloorSqrt`.
- OpenGL:
  - `glGenBuffers`, shader compilation and linking are oracles (`BufferNames`, `Gl`).
  - `glBufferData`/`glBufferSubData` are array allocation and region writes.
  - `glDispatchCompute`/`glMemoryBarrier` and the uniform uploads become the `Command` trace of `Update`.
  - Not modelled: binding points (`glBindBufferBase`, `glBindBuffer`), the density, pressure and
    cell-count buffer contents, shader and program deletion, `glValidateProgram`, and the vertex
    attribute 0 layout and clear colour of the renderer.
- Compute-shader bodies are not part of this model. Grid counting, density, pressure and forces run in
  `assets/shaders/*.comp`, so no physics is modelled.
- GPU concurrency: barriers are modelled only as their position in the trace.
- File I/O: `ifstream` is a lookup in `FileSystem`, and `getline` is `SplitLines` on `'\n'`. On POSIX
  systems a carriage return stays part of its line; the CRLF translation of a Windows text-mode
  `ifstream` is not modelled.
- Console and error logging.
- `Shader` setters (`setMat4`, `setVec3`, `setFloat`, `setTexture`) and destructors: they only forward
  to the driver.
- `main.cpp` is not part of this model: the window, UI sliders, mouse mapping and main loop. The
  `viscosity` parameter is modelled with its default, but only a UI slider reads it (main.cpp:126);
  `Update` never uploads it.
- `cosf`/`sinf` are uninterpreted (`Trig`), so nothing is proved about where rim vertices lie beyond
  their formula.
