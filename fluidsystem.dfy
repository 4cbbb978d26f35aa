/**
 * The black-oil fluid system as the ECL output module sees it: three
 * phases, the per-DOF fluid state the solver produces, and the four PVT
 * evaluators of the fluid system, which are kept uninterpreted (they are
 * passed in as functions).
 */
module BlackOilFluidSystem {

  /** Number of fluid phases of the black-oil model. */
  const NumPhases: nat := 3
  /** Number of components of the black-oil model. */
  const NumComponents: nat := 3

  /** Phase and component indices of the black-oil fluid system. */
  const WaterPhaseIdx: nat := 0
  const OilPhaseIdx: nat := 1
  const GasPhaseIdx: nat := 2
  const GasCompIdx: nat := 2

  /** A phase index. */
  type PhaseIdx = p: nat | p < NumPhases witness 0

  /** One scalar per fluid phase (a fixed-size vector in the simulator). */
  type PhaseVector = v: seq<real> | |v| == NumPhases witness [0.0, 0.0, 0.0]

  /** One scalar per component. */
  type CompVector = v: seq<real> | |v| == NumComponents witness [0.0, 0.0, 0.0]

  const NoComponents: CompVector := [0.0, 0.0, 0.0]

  /** Mass fractions, indexed first by phase and then by component. */
  type MassFractions = m: seq<CompVector> | |m| == NumPhases
    witness [NoComponents, NoComponents, NoComponents]

  /** The fluid state of one degree of freedom (pressures in Pa). */
  datatype FluidState = FluidState(
    pressure: PhaseVector,
    saturation: PhaseVector,
    massFraction: MassFractions)

  /** The mass fraction of component `compIdx` in phase `phaseIdx`. */
  function MassFraction(fs: FluidState, phaseIdx: PhaseIdx, compIdx: nat): real
    requires compIdx < NumComponents
  {
    fs.massFraction[phaseIdx][compIdx]
  }

  /**
   * The PVT evaluators of the fluid system. Each maps a scalar (the oil
   * pressure, or for the saturation pressure the mass fraction of gas in
   * oil) and a PVT region index to a scalar.
   */
  datatype PvtFunctions = PvtFunctions(
    gasDissolutionFactor: (real, int) -> real,
    gasFormationVolumeFactor: (real, int) -> real,
    saturatedOilFormationVolumeFactor: (real, int) -> real,
    oilSaturationPressure: (real, int) -> real)
}
