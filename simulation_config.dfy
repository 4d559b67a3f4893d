/** Compile-time constants and parameter defaults declared in `Simulation.h`. */
module SimulationConfig {

  /** Cells along each side of the uniform counting grid (`GRID_DIM`). */
  const GridDim: nat := 64

  /** Total number of grid cells (`NUM_GRID_CELLS`). */
  const NumGridCells: nat := GridDim * GridDim

  /** The public, UI-tunable simulation parameters, one field per float member of the class. */
  datatype Params = Params(
    gravityStrength: real,
    restDensity: real,
    gasConstant: real,
    boundaryStiffness: real,
    boundaryDamping: real,
    viscosity: real,
    viscosityConstant: real,
    pressureMultiplier: real,
    surfaceTension: real,
    surfaceThreshold: real,
    smoothingRadius: real,
    particleMass: real)

  /** The default member initialisers. The smoothing kernel and the particle mass are only meaningful for
      a positive radius and mass, and every default is positive. */
  function DefaultParams(): (p: Params)
    ensures p.smoothingRadius > 0.0 && p.particleMass > 0.0 && p.viscosity > 0.0
    ensures p.restDensity > 0.0 && p.gasConstant > 0.0 && p.gravityStrength > 0.0
    ensures p.boundaryStiffness > 0.0 && p.boundaryDamping > 0.0 && p.viscosityConstant > 0.0
    ensures p.pressureMultiplier > 0.0 && p.surfaceTension > 0.0 && p.surfaceThreshold > 0.0
  {
    Params(
      gravityStrength := 9.8,
      restDensity := 10.0,
      gasConstant := 1.0,
      boundaryStiffness := 1200.0,
      boundaryDamping := 0.75,
      viscosity := 0.1,
      viscosityConstant := 0.25,
      pressureMultiplier := 0.01,
      surfaceTension := 80.0,
      surfaceThreshold := 0.00000001,
      smoothingRadius := 0.2,
      particleMass := 0.01)
  }

  /** The grid has 64 x 64 cells. */
  lemma GridCellCount()
    ensures NumGridCells == 4096
  {
  }
}
