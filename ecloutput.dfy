/**
 * The ECL output module of the black-oil simulator: it owns one scalar
 * buffer per output quantity (one per phase for saturations and pressures,
 * one each for the four PVT quantities), sizes them in AllocBuffers, fills
 * them element by element in ProcessElement and, in CommitBuffers, hands
 * every enabled buffer except the oil saturation to the result writer under
 * fixed ECL names.
 *
 * The pure functions Allocate, WriteDof, ApplyElement, Process and
 * CommitLog state what the three lifecycle methods do to the buffers and to
 * the writer; the methods of EclOutputBlackOilModule are proved against them.
 */
module EclOutput {
  import opened BlackOilFluidSystem

  datatype Option<T> = None | Some(value: T)

  /** The spatial discretization the simulator was built with. */
  datatype Discretization = EcfvDiscretization | OtherDiscretization

  /** The six run-time flags selecting which quantities are written. */
  datatype OutputConfig = OutputConfig(
    saturationsOutput: bool,
    pressuresOutput: bool,
    gasDissolutionFactorOutput: bool,
    gasFormationVolumeFactorOutput: bool,
    saturatedOilFormationVolumeFactorOutput: bool,
    oilSaturationPressureOutput: bool)

  /** Every quantity is written unless the run switches it off. */
  const DefaultConfig := OutputConfig(true, true, true, true, true, true)

  /** One scalar per global degree of freedom. */
  type ScalarBuffer = seq<real>

  /** One scalar buffer per phase. */
  type PhaseBuffers = s: seq<ScalarBuffer> | |s| == NumPhases witness [[], [], []]

  /** The module's buffers, as a value. */
  datatype Buffers = Buffers(
    saturation: PhaseBuffers,
    pressure: PhaseBuffers,
    gasDissolutionFactor: ScalarBuffer,
    gasFormationVolumeFactor: ScalarBuffer,
    saturatedOilFormationVolumeFactor: ScalarBuffer,
    oilSaturationPressure: ScalarBuffer)

  /** The buffers of a freshly constructed module: all empty. */
  const Unallocated := Buffers([[], [], []], [[], [], []], [], [], [], [])

  /**
   * One primary degree of freedom of an element at time index 0: its global
   * index, its fluid state and its PVT region.
   */
  datatype Dof = Dof(globalIndex: nat, fluidState: FluidState, pvtRegion: int)

  /** The primary DOFs of one element, in local order. */
  type ElementContext = seq<Dof>

  /** A name and a buffer handed to the result writer. */
  datatype Entry = Entry(name: string, data: ScalarBuffer)

  /**
   * Every quantity the module can hold, one buffer each; this gives the
   * lemmas a single way to talk about any buffer.
   */
  datatype Quantity =
    | Saturation(phase: PhaseIdx)
    | Pressure(phase: PhaseIdx)
    | GasDissolutionFactor
    | GasFormationVolumeFactor
    | SaturatedOilFormationVolumeFactor
    | OilSaturationPressure

  // ---------------------------------------------------------------------
  // Reference view: per quantity
  // ---------------------------------------------------------------------

  /** Whether the configuration selects quantity `q`. */
  predicate Enabled(cfg: OutputConfig, q: Quantity)
  {
    match q
    case Saturation(_) => cfg.saturationsOutput
    case Pressure(_) => cfg.pressuresOutput
    case GasDissolutionFactor => cfg.gasDissolutionFactorOutput
    case GasFormationVolumeFactor => cfg.gasFormationVolumeFactorOutput
    case SaturatedOilFormationVolumeFactor => cfg.saturatedOilFormationVolumeFactorOutput
    case OilSaturationPressure => cfg.oilSaturationPressureOutput
  }

  /** The buffer that holds quantity `q`. */
  function BufferOf(b: Buffers, q: Quantity): ScalarBuffer
  {
    match q
    case Saturation(p) => b.saturation[p]
    case Pressure(p) => b.pressure[p]
    case GasDissolutionFactor => b.gasDissolutionFactor
    case GasFormationVolumeFactor => b.gasFormationVolumeFactor
    case SaturatedOilFormationVolumeFactor => b.saturatedOilFormationVolumeFactor
    case OilSaturationPressure => b.oilSaturationPressure
  }

  /** Pascal to bar. */
  function InBar(pa: real): real
  {
    pa / 100000.0
  }

  /**
   * The value quantity `q` takes at degree of freedom `d`: saturations as
   * they are, pressures in bar, RS, BG and BOSAT from the oil pressure and
   * the PVT region, PSAT from the mass fraction of gas in oil and the region.
   */
  function DofValue(q: Quantity, d: Dof, pvt: PvtFunctions): real
  {
    var fs := d.fluidState;
    match q
    case Saturation(p) => fs.saturation[p]
    case Pressure(p) => InBar(fs.pressure[p])
    case GasDissolutionFactor =>
      pvt.gasDissolutionFactor(fs.pressure[OilPhaseIdx], d.pvtRegion)
    case GasFormationVolumeFactor =>
      pvt.gasFormationVolumeFactor(fs.pressure[OilPhaseIdx], d.pvtRegion)
    case SaturatedOilFormationVolumeFactor =>
      pvt.saturatedOilFormationVolumeFactor(fs.pressure[OilPhaseIdx], d.pvtRegion)
    case OilSaturationPressure =>
      pvt.oilSaturationPressure(fs.massFraction[OilPhaseIdx][GasCompIdx], d.pvtRegion)
  }

  /** The ECL keyword a quantity is committed under; oil saturation has none. */
  function EclName(q: Quantity): Option<string>
  {
    match q
    case Saturation(p) =>
      if p == WaterPhaseIdx then Some("SWAT")
      else if p == GasPhaseIdx then Some("SGAS")
      else None
    case Pressure(p) =>
      if p == OilPhaseIdx then Some("PRESSURE")
      else if p == GasPhaseIdx then Some("PGAS")
      else Some("PWAT")
    case GasDissolutionFactor => Some("RS")
    case GasFormationVolumeFactor => Some("BG")
    case SaturatedOilFormationVolumeFactor => Some("BOSAT")
    case OilSaturationPressure => Some("PSAT")
  }

  /** The quantity an ECL keyword stands for, the inverse of EclName. */
  function QuantityNamed(name: string): Option<Quantity>
  {
    if name == "SWAT" then Some(Saturation(WaterPhaseIdx))
    else if name == "SGAS" then Some(Saturation(GasPhaseIdx))
    else if name == "PRESSURE" then Some(Pressure(OilPhaseIdx))
    else if name == "PGAS" then Some(Pressure(GasPhaseIdx))
    else if name == "PWAT" then Some(Pressure(WaterPhaseIdx))
    else if name == "RS" then Some(GasDissolutionFactor)
    else if name == "BG" then Some(GasFormationVolumeFactor)
    else if name == "BOSAT" then Some(SaturatedOilFormationVolumeFactor)
    else if name == "PSAT" then Some(OilSaturationPressure)
    else None
  }

  // ---------------------------------------------------------------------
  // allocBuffers
  // ---------------------------------------------------------------------

  /** A buffer resized to `n` degrees of freedom; old contents are dropped. */
  function Resized(n: nat): (r: ScalarBuffer)
    ensures |r| == n
  {
    seq(n, _ => 0.0)
  }

  /** Every phase buffer resized to `n`. */
  function ResizedPhases(n: nat): PhaseBuffers
  {
    seq(NumPhases, _ => Resized(n))
  }

  /** The buffers after allocBuffers with `numDof` degrees of freedom. */
  function Allocate(b: Buffers, cfg: OutputConfig, disc: Discretization, numDof: nat): Buffers
  {
    if disc != EcfvDiscretization then b
    else Buffers(
      if cfg.saturationsOutput then ResizedPhases(numDof) else b.saturation,
      if cfg.pressuresOutput then ResizedPhases(numDof) else b.pressure,
      if cfg.gasDissolutionFactorOutput then Resized(numDof) else b.gasDissolutionFactor,
      if cfg.gasFormationVolumeFactorOutput then Resized(numDof) else b.gasFormationVolumeFactor,
      if cfg.saturatedOilFormationVolumeFactorOutput then Resized(numDof)
      else b.saturatedOilFormationVolumeFactor,
      if cfg.oilSaturationPressureOutput then Resized(numDof) else b.oilSaturationPressure)
  }

  // ---------------------------------------------------------------------
  // processElement
  // ---------------------------------------------------------------------

  /** Global index `g` is a slot of every buffer the configuration enables. */
  predicate InBounds(b: Buffers, cfg: OutputConfig, g: nat)
  {
    (cfg.saturationsOutput ==> forall p: PhaseIdx :: g < |b.saturation[p]|) &&
    (cfg.pressuresOutput ==> forall p: PhaseIdx :: g < |b.pressure[p]|) &&
    (cfg.gasDissolutionFactorOutput ==> g < |b.gasDissolutionFactor|) &&
    (cfg.gasFormationVolumeFactorOutput ==> g < |b.gasFormationVolumeFactor|) &&
    (cfg.saturatedOilFormationVolumeFactorOutput ==> g < |b.saturatedOilFormationVolumeFactor|) &&
    (cfg.oilSaturationPressureOutput ==> g < |b.oilSaturationPressure|)
  }

  /** Every DOF of the element has its global index inside the enabled buffers. */
  predicate Writable(b: Buffers, cfg: OutputConfig, elemCtx: ElementContext)
  {
    forall i | 0 <= i < |elemCtx| :: InBounds(b, cfg, elemCtx[i].globalIndex)
  }

  /** Two buffer sets have buffers of the same lengths. */
  predicate SameShape(a: Buffers, b: Buffers)
  {
    (forall p: PhaseIdx :: |a.saturation[p]| == |b.saturation[p]|) &&
    (forall p: PhaseIdx :: |a.pressure[p]| == |b.pressure[p]|) &&
    |a.gasDissolutionFactor| == |b.gasDissolutionFactor| &&
    |a.gasFormationVolumeFactor| == |b.gasFormationVolumeFactor| &&
    |a.saturatedOilFormationVolumeFactor| == |b.saturatedOilFormationVolumeFactor| &&
    |a.oilSaturationPressure| == |b.oilSaturationPressure|
  }

  /** Slot `g` of every phase buffer overwritten with that phase's value. */
  function SetPhases(bufs: PhaseBuffers, g: nat, values: PhaseVector): (r: PhaseBuffers)
    requires forall p: PhaseIdx :: g < |bufs[p]|
    ensures forall p: PhaseIdx :: |r[p]| == |bufs[p]|
  {
    seq(NumPhases, p requires 0 <= p < NumPhases => bufs[p][g := values[p]])
  }

  /** Phase pressures converted from Pa to bar. */
  function PressuresInBar(pa: PhaseVector): PhaseVector
  {
    seq(NumPhases, p requires 0 <= p < NumPhases => InBar(pa[p]))
  }

  /** The buffers after the body of the DOF loop has run for `d`. */
  function WriteDof(b: Buffers, cfg: OutputConfig, d: Dof, pvt: PvtFunctions): (r: Buffers)
    requires InBounds(b, cfg, d.globalIndex)
    ensures SameShape(r, b)
  {
    var fs := d.fluidState;
    var g := d.globalIndex;
    var regionIdx := d.pvtRegion;
    var po := fs.pressure[OilPhaseIdx];
    var xoG := MassFraction(fs, OilPhaseIdx, GasCompIdx);
    Buffers(
      if cfg.saturationsOutput then SetPhases(b.saturation, g, fs.saturation) else b.saturation,
      if cfg.pressuresOutput then SetPhases(b.pressure, g, PressuresInBar(fs.pressure)) else b.pressure,
      if cfg.gasDissolutionFactorOutput
      then b.gasDissolutionFactor[g := pvt.gasDissolutionFactor(po, regionIdx)]
      else b.gasDissolutionFactor,
      if cfg.gasFormationVolumeFactorOutput
      then b.gasFormationVolumeFactor[g := pvt.gasFormationVolumeFactor(po, regionIdx)]
      else b.gasFormationVolumeFactor,
      if cfg.saturatedOilFormationVolumeFactorOutput
      then b.saturatedOilFormationVolumeFactor[g := pvt.saturatedOilFormationVolumeFactor(po, regionIdx)]
      else b.saturatedOilFormationVolumeFactor,
      if cfg.oilSaturationPressureOutput
      then b.oilSaturationPressure[g := pvt.oilSaturationPressure(xoG, regionIdx)]
      else b.oilSaturationPressure)
  }

  /** The buffers after the DOFs of `elemCtx` have been written in order. */
  function ApplyElement(b: Buffers, cfg: OutputConfig, elemCtx: ElementContext, pvt: PvtFunctions): (r: Buffers)
    requires Writable(b, cfg, elemCtx)
    ensures SameShape(r, b)
    decreases |elemCtx|
  {
    if elemCtx == [] then b
    else
      var prefix := elemCtx[..|elemCtx| - 1];
      var before := ApplyElement(b, cfg, prefix, pvt);
      WriteDof(before, cfg, elemCtx[|elemCtx| - 1], pvt)
  }

  /** The buffers after processElement (nothing happens off the ECFV path). */
  function Process(b: Buffers, cfg: OutputConfig, disc: Discretization,
                   elemCtx: ElementContext, pvt: PvtFunctions): Buffers
    requires disc == EcfvDiscretization ==> Writable(b, cfg, elemCtx)
  {
    if disc != EcfvDiscretization then b else ApplyElement(b, cfg, elemCtx, pvt)
  }

  // ---------------------------------------------------------------------
  // commitBuffers
  // ---------------------------------------------------------------------

  /** The three phase pressures, when pressures are written. */
  function PressureEntries(b: Buffers, cfg: OutputConfig): seq<Entry>
  {
    if cfg.pressuresOutput
    then [Entry("PRESSURE", b.pressure[OilPhaseIdx]),
          Entry("PGAS", b.pressure[GasPhaseIdx]),
          Entry("PWAT", b.pressure[WaterPhaseIdx])]
    else []
  }

  /** The water and gas saturations, when saturations are written. */
  function SaturationEntries(b: Buffers, cfg: OutputConfig): seq<Entry>
  {
    if cfg.saturationsOutput
    then [Entry("SWAT", b.saturation[WaterPhaseIdx]),
          Entry("SGAS", b.saturation[GasPhaseIdx])]
    else []
  }

  /** A single entry, present only when its flag is set. */
  function Optional(enabled: bool, e: Entry): seq<Entry>
  {
    if enabled then [e] else []
  }

  /** The four PVT quantities, each under its own flag. */
  function PvtEntries(b: Buffers, cfg: OutputConfig): seq<Entry>
  {
    Optional(cfg.gasDissolutionFactorOutput, Entry("RS", b.gasDissolutionFactor)) +
    Optional(cfg.gasFormationVolumeFactorOutput, Entry("BG", b.gasFormationVolumeFactor)) +
    Optional(cfg.saturatedOilFormationVolumeFactorOutput,
             Entry("BOSAT", b.saturatedOilFormationVolumeFactor)) +
    Optional(cfg.oilSaturationPressureOutput, Entry("PSAT", b.oilSaturationPressure))
  }

  /** The entries commitBuffers hands to a writer, in order. */
  function CommitLog(b: Buffers, cfg: OutputConfig, disc: Discretization, isEclWriter: bool): seq<Entry>
  {
    if disc != EcfvDiscretization || !isEclWriter then []
    else PressureEntries(b, cfg) + SaturationEntries(b, cfg) + PvtEntries(b, cfg)
  }

  // ---------------------------------------------------------------------
  // The writer and the module
  // ---------------------------------------------------------------------

  /**
   * A result writer: whether it is an ECL writer, and the named buffers it
   * has been given so far.
   */
  class OutputWriter {
    const isEclWriter: bool
    var log: seq<Entry>

    constructor (isEclWriter: bool)
      ensures this.isEclWriter == isEclWriter && log == []
    {
      this.isEclWriter := isEclWriter;
      log := [];
    }

    /** Accept one named buffer. */
    method CommitScalarBuffer(name: string, data: ScalarBuffer)
      modifies this
      ensures log == old(log) + [Entry(name, data)]
    {
      log := log + [Entry(name, data)];
    }
  }

  class EclOutputBlackOilModule {
    const discretization: Discretization
    const config: OutputConfig

    var saturation: PhaseBuffers
    var pressure: PhaseBuffers
    var gasDissolutionFactor: ScalarBuffer
    var gasFormationVolumeFactor: ScalarBuffer
    var saturatedOilFormationVolumeFactor: ScalarBuffer
    var oilSaturationPressure: ScalarBuffer

    /** The current buffers, as a value. */
    function Contents(): Buffers
      reads this
    {
      Buffers(saturation, pressure, gasDissolutionFactor, gasFormationVolumeFactor,
              saturatedOilFormationVolumeFactor, oilSaturationPressure)
    }

    constructor (discretization: Discretization, config: OutputConfig)
      ensures this.discretization == discretization && this.config == config
      ensures Contents() == Unallocated
    {
      this.discretization := discretization;
      this.config := config;
      saturation := [[], [], []];
      pressure := [[], [], []];
      gasDissolutionFactor := [];
      gasFormationVolumeFactor := [];
      saturatedOilFormationVolumeFactor := [];
      oilSaturationPressure := [];
    }

    /**
     * Size the buffer of every enabled quantity to `numDof`, the element
     * count of the grid at the time of the call.
     */
    method AllocBuffers(numDof: nat)
      modifies this
      ensures Contents() == Allocate(old(Contents()), config, discretization, numDof)
    {
      if discretization != EcfvDiscretization {
        return;
      }
      if config.saturationsOutput {
        saturation := ResizePhases(saturation, numDof);
      }
      if config.pressuresOutput {
        pressure := ResizePhases(pressure, numDof);
      }
      if config.gasDissolutionFactorOutput {
        gasDissolutionFactor := Resized(numDof);
      }
      if config.gasFormationVolumeFactorOutput {
        gasFormationVolumeFactor := Resized(numDof);
      }
      if config.saturatedOilFormationVolumeFactorOutput {
        saturatedOilFormationVolumeFactor := Resized(numDof);
      }
      if config.oilSaturationPressureOutput {
        oilSaturationPressure := Resized(numDof);
      }
    }

    /** Resize each buffer of a per-phase group to the DOF count. */
    static method ResizePhases(bufs: PhaseBuffers, numDof: nat) returns (r: PhaseBuffers)
      ensures r == ResizedPhases(numDof)
    {
      r := bufs;
      for phaseIdx := 0 to NumPhases
        invariant forall p: PhaseIdx :: p < phaseIdx ==> r[p] == Resized(numDof)
      {
        r := r[phaseIdx := Resized(numDof)];
      }
    }

    /** Write the values of the element's primary DOFs into the enabled buffers. */
    method ProcessElement(elemCtx: ElementContext, pvt: PvtFunctions)
      requires discretization == EcfvDiscretization ==> Writable(Contents(), config, elemCtx)
      modifies this
      ensures Contents() == Process(old(Contents()), config, discretization, elemCtx, pvt)
    {
      if discretization != EcfvDiscretization {
        return;
      }
      for dofIdx := 0 to |elemCtx|
        invariant Contents() == ApplyElement(old(Contents()), config, elemCtx[..dofIdx], pvt)
      {
        assert elemCtx[..dofIdx + 1][..dofIdx] == elemCtx[..dofIdx];
        ProcessDof(elemCtx[dofIdx], pvt);
      }
      assert elemCtx[..|elemCtx|] == elemCtx;
    }

    /** The body of the DOF loop of processElement, for one primary DOF. */
    method ProcessDof(d: Dof, pvt: PvtFunctions)
      requires InBounds(Contents(), config, d.globalIndex)
      modifies this
      ensures Contents() == WriteDof(old(Contents()), config, d, pvt)
    {
      var fs := d.fluidState;
      var globalDofIdx := d.globalIndex;
      var regionIdx := d.pvtRegion;
      var po := fs.pressure[OilPhaseIdx];
      var xoG := MassFraction(fs, OilPhaseIdx, GasCompIdx);

      if config.saturationsOutput {
        saturation := StorePhases(saturation, globalDofIdx, fs.saturation);
      }
      if config.pressuresOutput {
        pressure := StorePhases(pressure, globalDofIdx, PressuresInBar(fs.pressure));
      }
      if config.gasDissolutionFactorOutput {
        gasDissolutionFactor := gasDissolutionFactor[globalDofIdx := pvt.gasDissolutionFactor(po, regionIdx)];
      }
      if config.gasFormationVolumeFactorOutput {
        gasFormationVolumeFactor :=
          gasFormationVolumeFactor[globalDofIdx := pvt.gasFormationVolumeFactor(po, regionIdx)];
      }
      if config.saturatedOilFormationVolumeFactorOutput {
        saturatedOilFormationVolumeFactor :=
          saturatedOilFormationVolumeFactor[globalDofIdx := pvt.saturatedOilFormationVolumeFactor(po, regionIdx)];
      }
      if config.oilSaturationPressureOutput {
        oilSaturationPressure := oilSaturationPressure[globalDofIdx := pvt.oilSaturationPressure(xoG, regionIdx)];
      }
    }

    /** The phase loop of processElement: slot `g` of each phase's buffer gets that phase's value. */
    static method StorePhases(bufs: PhaseBuffers, g: nat, values: PhaseVector) returns (r: PhaseBuffers)
      requires forall p: PhaseIdx :: g < |bufs[p]|
      ensures r == SetPhases(bufs, g, values)
    {
      r := bufs;
      for phaseIdx := 0 to NumPhases
        invariant forall p: PhaseIdx :: p < phaseIdx ==> r[p] == bufs[p][g := values[p]]
        invariant forall p: PhaseIdx :: p >= phaseIdx ==> r[p] == bufs[p]
      {
        r := r[phaseIdx := r[phaseIdx][g := values[phaseIdx]]];
      }
    }

    /** Hand the enabled buffers to an ECL writer under their ECL names. */
    method CommitBuffers(writer: OutputWriter)
      modifies writer
      ensures writer.log == old(writer.log) + CommitLog(Contents(), config, discretization, writer.isEclWriter)
    {
      if discretization != EcfvDiscretization {
        return;
      }
      if !writer.isEclWriter {
        return;
      }
      ghost var start := writer.log;
      ghost var b := Contents();
      CommitPhaseBuffers(writer);
      assert writer.log == start + PressureEntries(b, config) + SaturationEntries(b, config);
      CommitPvtBuffers(writer);
      assert writer.log == start + PressureEntries(b, config) + SaturationEntries(b, config) + PvtEntries(b, config);
    }

    /** The pressure and saturation part of commitBuffers. */
    method CommitPhaseBuffers(writer: OutputWriter)
      modifies writer
      ensures writer.log == old(writer.log) + PressureEntries(Contents(), config) + SaturationEntries(Contents(), config)
    {
      if config.pressuresOutput {
        writer.CommitScalarBuffer("PRESSURE", pressure[OilPhaseIdx]);
        writer.CommitScalarBuffer("PGAS", pressure[GasPhaseIdx]);
        writer.CommitScalarBuffer("PWAT", pressure[WaterPhaseIdx]);
      }
      if config.saturationsOutput {
        writer.CommitScalarBuffer("SWAT", saturation[WaterPhaseIdx]);
        writer.CommitScalarBuffer("SGAS", saturation[GasPhaseIdx]);
        // oil saturation is left to the post-processing tools
      }
    }

    /** The PVT part of commitBuffers: each quantity under its own flag. */
    method CommitPvtBuffers(writer: OutputWriter)
      modifies writer
      ensures writer.log == old(writer.log) + PvtEntries(Contents(), config)
    {
      if config.gasDissolutionFactorOutput {
        writer.CommitScalarBuffer("RS", gasDissolutionFactor);
      }
      if config.gasFormationVolumeFactorOutput {
        writer.CommitScalarBuffer("BG", gasFormationVolumeFactor);
      }
      if config.saturatedOilFormationVolumeFactorOutput {
        writer.CommitScalarBuffer("BOSAT", saturatedOilFormationVolumeFactor);
      }
      if config.oilSaturationPressureOutput {
        writer.CommitScalarBuffer("PSAT", oilSaturationPressure);
      }
    }
  }
}
