/** `Simulation.cpp` / `Simulation.h`: the particle store as a class over two buffers, its initialisation
    on a lattice, its resize operation, and the per-frame sequence of compute dispatches and barriers.
    GPU buffers are arrays; the names `glGenBuffers` hands out are parameters; a frame is returned as the
    list of commands it issues. */
module FluidSimulation {
  import opened Numerics
  import opened SimulationConfig
  import opened ParticleStore
  import opened Shaders

  /** Invocations per compute workgroup; every kernel is dispatched in groups of 128. */
  const WorkgroupSize: nat := 128

  /** Largest time step handed to the force pass. */
  const MaxDeltaTime: real := 0.008

  /** Where `Init` loads the four kernels from. */
  const PhysicsShaderPath: string := "assets/shaders/physics.comp"
  const DensityShaderPath: string := "assets/shaders/density.comp"
  const GridClearShaderPath: string := "assets/shaders/grid_clear.comp"
  const GridCountShaderPath: string := "assets/shaders/grid_count.comp"

  /** Scale applied to the smoothing radius to give the boundary radius uniform. */
  const BoundaryRadiusScale: real := 0.000005

  /** `(n + 127) / 128`: the number of workgroups dispatched for `n` items; it is the least number of
      128-wide groups that covers all `n` items. */
  function GroupCount(n: nat): (groups: nat)
    ensures groups * WorkgroupSize >= n
    ensures groups == 0 || (groups - 1) * WorkgroupSize < n
  {
    (n + 127) / 128
  }

  /** `deltaTime > 0.008f ? 0.008f : deltaTime`: the step is never larger than `MaxDeltaTime`, and a step
      that is not too large passes unchanged. */
  function ClampDeltaTime(deltaTime: real): (dt: real)
    ensures dt <= MaxDeltaTime && dt <= deltaTime
    ensures dt == deltaTime || dt == MaxDeltaTime
  {
    if deltaTime > MaxDeltaTime then MaxDeltaTime else deltaTime
  }

  /** The four compute kernels of a frame. */
  datatype Kernel = GridClear | GridCount | Density | Force

  /** The uniforms each kernel is given before its dispatch. */
  datatype Uniforms =
    | NoUniforms
    | CountUniforms(gridDim: nat)
    | DensityUniforms(particleCount: nat, particleMass: real, smoothingRadius: real, gasConstant: real,
                      restDensity: real)
    | ForceUniforms(particleCount: nat, deltaTime: real, gravity: real, time: real, particleMass: real,
                    smoothingRadius: real, viscosityConstant: real, mousePressed: bool, mousePos: Vec2,
                    boundaryStiffness: real, boundaryDamping: real, pressureMultiplier: real,
                    surfaceTension: real, surfaceThreshold: real, boundaryLimit: real, boundaryRadius: real)

  /** A command issued to the device: run a kernel's program over `groups` workgroups, or wait until all
      storage-buffer writes (and, when `vertexAttribs`, vertex-attribute reads) see earlier writes. */
  datatype Command =
    | Dispatch(kernel: Kernel, program: nat, uniforms: Uniforms, groups: nat)
    | Barrier(vertexAttribs: bool)

  /** The kernels dispatched by `cmds`, in issue order. */
  function Kernels(cmds: seq<Command>): seq<Kernel> {
    if cmds == [] then []
    else (if cmds[0].Dispatch? then [cmds[0].kernel] else []) + Kernels(cmds[1..])
  }

  /** Every dispatch is immediately followed by a barrier. */
  predicate Fenced(cmds: seq<Command>) {
    forall i :: 0 <= i < |cmds| && cmds[i].Dispatch? ==> i + 1 < |cmds| && cmds[i + 1].Barrier?
  }

  /** Dispatch lists concatenate. */
  lemma {:induction false} KernelsAppend(a: seq<Command>, b: seq<Command>)
    ensures Kernels(a + b) == Kernels(a) + Kernels(b)
  {
    if a == [] {
      assert a + b == b;
    } else {
      assert (a + b)[1..] == a[1..] + b;
      KernelsAppend(a[1..], b);
    }
  }

  /** One pass: a dispatch followed by its barrier. */
  lemma KernelsOfPass(k: Kernel, program: nat, u: Uniforms, groups: nat, vertexAttribs: bool)
    ensures Kernels([Dispatch(k, program, u, groups), Barrier(vertexAttribs)]) == [k]
  {
    var pass := [Dispatch(k, program, u, groups), Barrier(vertexAttribs)];
    assert pass[1..] == [Barrier(vertexAttribs)] && pass[1..][1..] == [];
    assert Kernels(pass[1..]) == [];
  }

  /** The first `n` slots hold the initial lattice positions and zero velocities. */
  ghost predicate Seeded(positions: seq<Vec2>, velocities: seq<Vec2>, n: nat) {
    n <= |positions| && n <= |velocities| &&
    forall i :: 0 <= i < n ==> positions[i] == LatticePosition(i, FloorSqrt(n)) && velocities[i] == Origin
  }

  /** The names `glGenBuffers` returned for the five shader storage buffers. */
  datatype BufferNames = BufferNames(position: nat, velocity: nat, density: nat, pressure: nat, cellCounts: nat)

  class Simulation {
    var maxParticles: nat
    var currentParticleCount: nat

    /** The names of the five shader storage buffers (0 until `Init`). */
    var buffers: BufferNames

    /** Contents of the position and velocity storage buffers, one slot per particle of capacity. */
    var positions: array<Vec2>
    var velocities: array<Vec2>

    var physicsUpdateShader: Shader?
    var densityShader: Shader?
    var gridClearShader: Shader?
    var gridCountShader: Shader?

    /** The public tunable parameters (one record field per float member of the class). */
    var params: Params

    /** Both buffers have one slot per particle of capacity, are distinct, and the live count fits. */
    ghost predicate Valid()
      reads this
    {
      positions.Length == maxParticles && velocities.Length == maxParticles &&
      positions != velocities && currentParticleCount <= maxParticles
    }

    /** The buffers and counters as a value. */
    ghost function View(): Store
      reads this, positions, velocities
    {
      Store(maxParticles, currentParticleCount, positions[..], velocities[..])
    }

    /** The four kernel programs have been created (by `Init`). */
    predicate Loaded()
      reads this
    {
      physicsUpdateShader != null && densityShader != null && gridClearShader != null && gridCountShader != null
    }

    function GetPositionSSBO(): nat reads this { buffers.position }
    function GetVelocitySSBO(): nat reads this { buffers.velocity }
    function GetDensitySSBO(): nat reads this { buffers.density }
    function GetPressureSSBO(): nat reads this { buffers.pressure }

    /** The live particle count; on a valid store it never exceeds the capacity. */
    function GetParticleCount(): (n: nat)
      reads this
      ensures Valid() ==> n <= GetMaxParticles()
    {
      currentParticleCount
    }

    /** The capacity; on a valid store it is the size of both particle buffers. */
    function GetMaxParticles(): (n: nat)
      reads this
      ensures Valid() ==> n == positions.Length && n == velocities.Length
    {
      maxParticles
    }

    /** `Simulation()`: no particles, no buffers, no programs, default parameters. */
    constructor ()
      ensures Valid() && !Loaded()
      ensures View() == Store(0, 0, [], [])
      ensures buffers == BufferNames(0, 0, 0, 0, 0)
      ensures params == DefaultParams()
    {
      maxParticles, currentParticleCount := 0, 0;
      buffers := BufferNames(0, 0, 0, 0, 0);
      positions := new Vec2[0];
      velocities := new Vec2[0];
      physicsUpdateShader, densityShader, gridClearShader, gridCountShader := null, null, null, null;
      params := DefaultParams();
    }

    /** `Init`: allocate the buffers at capacity, seed the first `initialParticles` on the lattice with zero
        velocity, and load the four kernels from their `.comp` files. `gl(k)` is the driver when the k-th
        kernel is constructed, so each kernel takes its name from its own `glCreateProgram` call, if it
        makes one (`KernelProgramsDistinct`: the kernels that load hold distinct programs). */
    method Init(maxParticles: nat, initialParticles: nat, names: BufferNames, files: FileSystem, gl: nat -> Gl)
      requires initialParticles <= maxParticles
      modifies this`maxParticles, this`currentParticleCount, this`positions, this`velocities, this`buffers
      modifies this`physicsUpdateShader, this`densityShader, this`gridClearShader, this`gridCountShader
      ensures Valid() && Loaded()
      ensures fresh(positions) && fresh(velocities)
      ensures this.maxParticles == maxParticles && currentParticleCount == initialParticles
      ensures Seeded(positions[..], velocities[..], initialParticles)
      ensures GetPositionSSBO() == names.position && GetVelocitySSBO() == names.velocity
      ensures GetDensitySSBO() == names.density && GetPressureSSBO() == names.pressure
      ensures buffers == names
      ensures fresh(physicsUpdateShader) && fresh(densityShader) && fresh(gridClearShader) && fresh(gridCountShader)
      ensures physicsUpdateShader.shaderObj == LoadedProgram(PhysicsShaderPath, files, gl(0))
      ensures densityShader.shaderObj == LoadedProgram(DensityShaderPath, files, gl(1))
      ensures gridClearShader.shaderObj == LoadedProgram(GridClearShaderPath, files, gl(2))
      ensures gridCountShader.shaderObj == LoadedProgram(GridCountShaderPath, files, gl(3))
    {
      SeedBuffers(maxParticles, initialParticles);
      buffers := names;
      LoadKernels(PhysicsShaderPath, DensityShaderPath, GridClearShaderPath, GridCountShaderPath, files, gl);
    }

    /** The buffer half of `Init`: both buffers sized for `maxParticles`, the first `initialParticles`
        slots written with the lattice and zero velocities. */
    method SeedBuffers(maxParticles: nat, initialParticles: nat)
      requires initialParticles <= maxParticles
      modifies this`maxParticles, this`currentParticleCount, this`positions, this`velocities
      ensures Valid() && fresh(positions) && fresh(velocities)
      ensures this.maxParticles == maxParticles && currentParticleCount == initialParticles
      ensures Seeded(positions[..], velocities[..], initialParticles)
    {
      this.maxParticles := maxParticles;
      currentParticleCount := initialParticles;

      var initialPositions := InitialLattice(initialParticles);
      var initialVelocities := Zeros(initialParticles);
      positions := AllocateBuffer(maxParticles, initialPositions);
      velocities := AllocateBuffer(maxParticles, initialVelocities);
      assert positions[..initialParticles] == initialPositions && velocities[..initialParticles] == initialVelocities;
    }

    /** Builds the four compute programs from their files, in the order the source creates them. */
    method LoadKernels(physicsPath: string, densityPath: string, clearPath: string, countPath: string,
                       files: FileSystem, gl: nat -> Gl)
      modifies this`physicsUpdateShader, this`densityShader, this`gridClearShader, this`gridCountShader
      ensures Loaded()
      ensures fresh(physicsUpdateShader) && fresh(densityShader) && fresh(gridClearShader) && fresh(gridCountShader)
      ensures physicsUpdateShader.shaderObj == LoadedProgram(physicsPath, files, gl(0))
      ensures densityShader.shaderObj == LoadedProgram(densityPath, files, gl(1))
      ensures gridClearShader.shaderObj == LoadedProgram(clearPath, files, gl(2))
      ensures gridCountShader.shaderObj == LoadedProgram(countPath, files, gl(3))
    {
      physicsUpdateShader := new Shader(physicsPath, files, gl(0));
      densityShader := new Shader(densityPath, files, gl(1));
      gridClearShader := new Shader(clearPath, files, gl(2));
      gridCountShader := new Shader(countPath, files, gl(3));
    }

    /** `UpdateParticleCount(newCount)`: a request equal to the count does nothing; a larger one is lowered
        to the capacity; growth samples `numToAdd` new positions (the k-th is `draw(k)`) and writes them,
        with zero velocities, into the slots `[old count, new count)`; shrinking only lowers the count. */
    method UpdateParticleCount(newCount: int, draw: nat -> Vec2)
      requires Valid() && newCount >= 0
      modifies this`currentParticleCount, positions, velocities
      ensures Valid()
      ensures View() == Resize(old(View()), newCount, draw)
      ensures newCount == old(currentParticleCount) ==>
        currentParticleCount == old(currentParticleCount) && positions[..] == old(positions[..]) &&
        velocities[..] == old(velocities[..])
      ensures currentParticleCount == ClampCount(newCount, maxParticles)
    {
      ghost var before := View();
      if newCount != currentParticleCount {
        var n: nat := newCount;
        if n > maxParticles {
          n := maxParticles;
        }
        if n > currentParticleCount {
          var numToAdd := n - currentParticleCount;
          var newPositions := SamplePositions(numToAdd, draw);
          var newVelocities := Zeros(numToAdd);
          WriteRegion(positions, currentParticleCount, newPositions);
          WriteRegion(velocities, currentParticleCount, newVelocities);
          currentParticleCount := n;
          GrowthWritesTail(before, newCount, draw);
        } else {
          currentParticleCount := n;
          ShrinkOnlyLowersCount(before, newCount, draw);
        }
      }
    }

    /** `Update`: the frame's four passes, clear, count, density, force, each dispatched over enough
        workgroups for its items and each followed by a barrier; the last barrier also covers the vertex
        attributes the renderer reads. The force pass gets the clamped time step. */
    method Update(deltaTime: real, currentFrame: real, isMouseDown: bool, mouseX: real, mouseY: real,
                  simBoundaryLimit: real) returns (frame: seq<Command>)
      requires Loaded()
      ensures Kernels(frame) == [GridClear, GridCount, Density, Force]
      ensures Fenced(frame)
      ensures |frame| == 8 && frame[7] == Barrier(true)
      ensures forall i :: 0 <= i < 7 && frame[i].Barrier? ==> !frame[i].vertexAttribs
      ensures forall i :: 0 <= i < |frame| && frame[i].Dispatch? ==>
        frame[i].groups * WorkgroupSize >= (if frame[i].kernel == GridClear then NumGridCells else currentParticleCount)
      ensures frame[0] == Dispatch(GridClear, gridClearShader.shaderObj, NoUniforms, 32)
      ensures frame[2] == Dispatch(GridCount, gridCountShader.shaderObj, CountUniforms(GridDim),
                                   GroupCount(currentParticleCount))
      ensures frame[4] == Dispatch(Density, densityShader.shaderObj,
        DensityUniforms(currentParticleCount, params.particleMass, params.smoothingRadius, params.gasConstant, params.restDensity),
        GroupCount(currentParticleCount))
      ensures frame[6].Dispatch? && frame[6].kernel == Force && frame[6].program == physicsUpdateShader.shaderObj
      ensures frame[6].groups == GroupCount(currentParticleCount)
      ensures frame[6].uniforms == ForceUniforms(currentParticleCount, ClampDeltaTime(deltaTime), params.gravityStrength,
        currentFrame, params.particleMass, params.smoothingRadius, params.viscosityConstant, isMouseDown, Vec2(mouseX, mouseY),
        params.boundaryStiffness, params.boundaryDamping, params.pressureMultiplier, params.surfaceTension, params.surfaceThreshold,
        simBoundaryLimit, params.smoothingRadius * BoundaryRadiusScale)
      ensures frame[6].uniforms.deltaTime <= MaxDeltaTime
    {
      var particleGroups := GroupCount(currentParticleCount);

      // 1. clear the cell counters
      var clear := [Dispatch(GridClear, gridClearShader.shaderObj, NoUniforms, GroupCount(NumGridCells)), Barrier(false)];
      // 2. count particles per cell
      var count := [Dispatch(GridCount, gridCountShader.shaderObj, CountUniforms(GridDim), particleGroups), Barrier(false)];
      // 3. density and pressure
      var density := [Dispatch(Density, densityShader.shaderObj,
                        DensityUniforms(currentParticleCount, params.particleMass, params.smoothingRadius, params.gasConstant, params.restDensity),
                        particleGroups), Barrier(false)];
      // 4. forces and integration
      var simBoundaryRadius := params.smoothingRadius * BoundaryRadiusScale;
      var forceUniforms := ForceUniforms(currentParticleCount, ClampDeltaTime(deltaTime), params.gravityStrength, currentFrame,
        params.particleMass, params.smoothingRadius, params.viscosityConstant, isMouseDown, Vec2(mouseX, mouseY), params.boundaryStiffness,
        params.boundaryDamping, params.pressureMultiplier, params.surfaceTension, params.surfaceThreshold, simBoundaryLimit, simBoundaryRadius);
      var force := [Dispatch(Force, physicsUpdateShader.shaderObj, forceUniforms, particleGroups), Barrier(true)];

      frame := clear + count + density + force;

      KernelsOfPass(GridClear, clear[0].program, clear[0].uniforms, clear[0].groups, false);
      KernelsOfPass(GridCount, count[0].program, count[0].uniforms, count[0].groups, false);
      KernelsOfPass(Density, density[0].program, density[0].uniforms, density[0].groups, false);
      KernelsOfPass(Force, force[0].program, force[0].uniforms, force[0].groups, true);
      KernelsAppend(clear, count);
      KernelsAppend(clear + count, density);
      KernelsAppend(clear + count + density, force);
    }
  }

  /** The square-ish lattice `Init` starts from: `n` positions, `FloorSqrt(n)` to a row. */
  method InitialLattice(n: nat) returns (lattice: seq<Vec2>)
    ensures |lattice| == n
    ensures forall i :: 0 <= i < n ==> lattice[i] == LatticePosition(i, FloorSqrt(n))
  {
    var numColumns := FloorSqrt(n);
    var cells := new Vec2[n];
    for i := 0 to n
      modifies cells
      invariant forall k :: 0 <= k < i ==> cells[k] == LatticePosition(k, numColumns)
    {
      cells[i] := LatticePosition(i, numColumns);
    }
    lattice := cells[..];
  }

  /** The paths of the four kernels, in the order `Init` loads them. */
  const KernelPaths: seq<string> := [PhysicsShaderPath, DensityShaderPath, GridClearShaderPath, GridCountShaderPath]

  /** The four kernels `Init` loads, the k-th with the driver `gl(k)`, hold distinct programs whenever
      they load and the driver never reuses the name of a live program. */
  lemma KernelProgramsDistinct(files: FileSystem, gl: nat -> Gl)
    requires LiveNamesFresh(KernelPaths, files, gl)
    ensures LoadedDistinct([LoadedProgram(PhysicsShaderPath, files, gl(0)), LoadedProgram(DensityShaderPath, files, gl(1)),
                            LoadedProgram(GridClearShaderPath, files, gl(2)), LoadedProgram(GridCountShaderPath, files, gl(3))])
  {
    var paths := KernelPaths;
    ProgramsFromFreshNames(paths, files, gl,
      [LoadedProgram(paths[0], files, gl(0)), LoadedProgram(paths[1], files, gl(1)),
       LoadedProgram(paths[2], files, gl(2)), LoadedProgram(paths[3], files, gl(3))]);
  }

  /** The sampling loop of `UpdateParticleCount`: the k-th new position is the k-th sample. */
  method SamplePositions(numToAdd: nat, draw: nat -> Vec2) returns (samples: seq<Vec2>)
    ensures samples == Draws(draw, numToAdd)
  {
    var newPositions := new Vec2[numToAdd];
    for i := 0 to numToAdd
      modifies newPositions
      invariant forall k :: 0 <= k < i ==> newPositions[k] == draw(k)
    {
      newPositions[i] := draw(i);
    }
    samples := newPositions[..];
  }

  /** `glBufferData` with room for `capacity` particles, then `glBufferSubData` of `initial` at offset 0. */
  method AllocateBuffer(capacity: nat, initial: seq<Vec2>) returns (buffer: array<Vec2>)
    requires |initial| <= capacity
    ensures fresh(buffer) && buffer.Length == capacity
    ensures buffer[..|initial|] == initial
  {
    buffer := new Vec2[capacity];
    WriteRegion(buffer, 0, initial);
    assert forall i :: 0 <= i < |initial| ==> buffer[i] == initial[i];
  }

  /** `glBufferSubData` on a storage buffer: overwrite the slots `[offset, offset + |data|)`. */
  method WriteRegion(buffer: array<Vec2>, offset: nat, data: seq<Vec2>)
    requires offset + |data| <= buffer.Length
    modifies buffer
    ensures buffer[..] == Overwrite(old(buffer[..]), offset, data)
  {
    forall i | offset <= i < offset + |data| {
      buffer[i] := data[i - offset];
    }
  }
}
