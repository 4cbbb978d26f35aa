/**
 * What the three lifecycle steps of the ECL output module guarantee, stated
 * over the functions that specify them (Allocate, ApplyElement / Process,
 * CommitLog) and proved against the per-quantity reference view
 * (Enabled, BufferOf, DofValue, EclName).
 */
module EclOutputProperties {
  import opened BlackOilFluidSystem
  import opened EclOutput

  // ---------------------------------------------------------------------
  // Helpers
  // ---------------------------------------------------------------------

  /** The last DOF of the element whose global index is `g`, if any. */
  function LastDofAt(elemCtx: ElementContext, g: nat): (r: Option<Dof>)
    ensures r.Some? ==> r.value in elemCtx && r.value.globalIndex == g
    ensures r.None? <==> forall i | 0 <= i < |elemCtx| :: elemCtx[i].globalIndex != g
    decreases |elemCtx|
  {
    if elemCtx == [] then None
    else if elemCtx[|elemCtx| - 1].globalIndex == g then Some(elemCtx[|elemCtx| - 1])
    else
      var r := LastDofAt(elemCtx[..|elemCtx| - 1], g);
      assert forall i | 0 <= i < |elemCtx| - 1 :: elemCtx[..|elemCtx| - 1][i] == elemCtx[i];
      r
  }

  /**
   * The DOF LastDofAt picks is the last one at `g`: no later DOF of the
   * element has that global index.
   */
  lemma {:induction false} LastDofAtIsLast(elemCtx: ElementContext, g: nat)
    ensures LastDofAt(elemCtx, g).Some? ==>
              exists i | 0 <= i < |elemCtx| ::
                elemCtx[i] == LastDofAt(elemCtx, g).value &&
                forall j | i < j < |elemCtx| :: elemCtx[j].globalIndex != g
    decreases |elemCtx|
  {
    if elemCtx != [] && elemCtx[|elemCtx| - 1].globalIndex != g {
      var prefix := elemCtx[..|elemCtx| - 1];
      LastDofAtIsLast(prefix, g);
      if LastDofAt(elemCtx, g).Some? {
        var i :| 0 <= i < |prefix| && prefix[i] == LastDofAt(prefix, g).value &&
                 forall j | i < j < |prefix| :: prefix[j].globalIndex != g;
        assert elemCtx[i] == LastDofAt(elemCtx, g).value;
        assert forall j | i < j < |elemCtx| :: elemCtx[j].globalIndex != g by {
          forall j | i < j < |elemCtx|
            ensures elemCtx[j].globalIndex != g
          {
            if j < |prefix| {
              assert prefix[j] == elemCtx[j];
            }
          }
        }
      }
    }
  }

  /** No two DOFs of the element share a global index. */
  predicate DistinctIndices(elemCtx: ElementContext)
  {
    forall i, j | 0 <= i < j < |elemCtx| :: elemCtx[i].globalIndex != elemCtx[j].globalIndex
  }

  /** The names of a commit log, in order. */
  function Names(log: seq<Entry>): seq<string>
  {
    seq(|log|, i requires 0 <= i < |log| => log[i].name)
  }

  /** The index of an enabled quantity's buffer is in bounds. */
  lemma InBoundsBuffer(b: Buffers, cfg: OutputConfig, g: nat, q: Quantity)
    requires InBounds(b, cfg, g) && Enabled(cfg, q)
    ensures g < |BufferOf(b, q)|
  {
  }

  /** Buffer sets are equal when every quantity's buffer is. */
  lemma BuffersEqual(a: Buffers, c: Buffers)
    requires forall q: Quantity :: BufferOf(a, q) == BufferOf(c, q)
    ensures a == c
  {
    assert BufferOf(a, Saturation(0)) == BufferOf(c, Saturation(0));
    assert BufferOf(a, Saturation(1)) == BufferOf(c, Saturation(1));
    assert BufferOf(a, Saturation(2)) == BufferOf(c, Saturation(2));
    assert BufferOf(a, Pressure(0)) == BufferOf(c, Pressure(0));
    assert BufferOf(a, Pressure(1)) == BufferOf(c, Pressure(1));
    assert BufferOf(a, Pressure(2)) == BufferOf(c, Pressure(2));
    assert a.saturation == c.saturation;
    assert a.pressure == c.pressure;
    assert BufferOf(a, GasDissolutionFactor) == BufferOf(c, GasDissolutionFactor);
    assert BufferOf(a, GasFormationVolumeFactor) == BufferOf(c, GasFormationVolumeFactor);
    assert BufferOf(a, SaturatedOilFormationVolumeFactor) == BufferOf(c, SaturatedOilFormationVolumeFactor);
    assert BufferOf(a, OilSaturationPressure) == BufferOf(c, OilSaturationPressure);
  }

  /** Buffer sets of the same shape have buffers of the same lengths. */
  lemma SameShapeBuffer(a: Buffers, b: Buffers, q: Quantity)
    requires SameShape(a, b)
    ensures |BufferOf(a, q)| == |BufferOf(b, q)|
  {
  }

  /** An element writable into some buffers is writable into buffers of the same shape. */
  lemma WritableSameShape(a: Buffers, b: Buffers, cfg: OutputConfig, elemCtx: ElementContext)
    requires Writable(b, cfg, elemCtx) && SameShape(a, b)
    ensures Writable(a, cfg, elemCtx)
  {
    forall i | 0 <= i < |elemCtx|
      ensures InBounds(a, cfg, elemCtx[i].globalIndex)
    {
      assert InBounds(b, cfg, elemCtx[i].globalIndex);
    }
  }

  // ---------------------------------------------------------------------
  // allocBuffers
  // ---------------------------------------------------------------------

  /**
   * After allocation every enabled quantity has a fresh buffer of `numDof`
   * slots, and every disabled one keeps its old buffer; off the ECFV path
   * nothing changes.
   */
  lemma AllocateBuffer(b: Buffers, cfg: OutputConfig, disc: Discretization, numDof: nat, q: Quantity)
    ensures BufferOf(Allocate(b, cfg, disc, numDof), q) ==
            if disc == EcfvDiscretization && Enabled(cfg, q) then Resized(numDof) else BufferOf(b, q)
  {
  }

  /** Allocating twice is allocating once. */
  lemma AllocateIdempotent(b: Buffers, cfg: OutputConfig, disc: Discretization, numDof: nat)
    ensures Allocate(Allocate(b, cfg, disc, numDof), cfg, disc, numDof) == Allocate(b, cfg, disc, numDof)
  {
  }

  /**
   * After allocation on the ECFV path, any element whose global indices are
   * below the DOF count can be processed.
   */
  lemma AllocatedAcceptsElement(b: Buffers, cfg: OutputConfig, numDof: nat, elemCtx: ElementContext)
    requires forall i | 0 <= i < |elemCtx| :: elemCtx[i].globalIndex < numDof
    ensures Writable(Allocate(b, cfg, EcfvDiscretization, numDof), cfg, elemCtx)
  {
    var a := Allocate(b, cfg, EcfvDiscretization, numDof);
    forall i | 0 <= i < |elemCtx|
      ensures InBounds(a, cfg, elemCtx[i].globalIndex)
    {
      var g := elemCtx[i].globalIndex;
      forall q: Quantity | Enabled(cfg, q)
        ensures g < |BufferOf(a, q)|
      {
        AllocateBuffer(b, cfg, EcfvDiscretization, numDof, q);
      }
      assert cfg.saturationsOutput ==> forall p: PhaseIdx :: g < |BufferOf(a, Saturation(p))|;
      assert cfg.pressuresOutput ==> forall p: PhaseIdx :: g < |BufferOf(a, Pressure(p))|;
      assert cfg.gasDissolutionFactorOutput ==> g < |BufferOf(a, GasDissolutionFactor)|;
      assert cfg.gasFormationVolumeFactorOutput ==> g < |BufferOf(a, GasFormationVolumeFactor)|;
      assert cfg.saturatedOilFormationVolumeFactorOutput ==> g < |BufferOf(a, SaturatedOilFormationVolumeFactor)|;
      assert cfg.oilSaturationPressureOutput ==> g < |BufferOf(a, OilSaturationPressure)|;
    }
  }

  // ---------------------------------------------------------------------
  // processElement
  // ---------------------------------------------------------------------

  /**
   * One DOF overwrites slot `globalIndex` of every enabled buffer with the
   * quantity's value at that DOF and leaves the disabled buffers alone.
   */
  lemma WriteDofBuffer(b: Buffers, cfg: OutputConfig, d: Dof, pvt: PvtFunctions, q: Quantity)
    requires InBounds(b, cfg, d.globalIndex)
    ensures Enabled(cfg, q) ==> d.globalIndex < |BufferOf(b, q)|
    ensures BufferOf(WriteDof(b, cfg, d, pvt), q) ==
            if Enabled(cfg, q) then BufferOf(b, q)[d.globalIndex := DofValue(q, d, pvt)]
            else BufferOf(b, q)
  {
    if Enabled(cfg, q) {
      InBoundsBuffer(b, cfg, d.globalIndex, q);
    }
  }

  /**
   * Slot `g` of a buffer after an element has been processed holds the value
   * of the last DOF of the element at `g` when the quantity is enabled and
   * some DOF is at `g`; otherwise it holds what it held before. Buffer
   * lengths never change.
   */
  lemma {:induction false} ApplyElementSlot(b: Buffers, cfg: OutputConfig, elemCtx: ElementContext,
                                            pvt: PvtFunctions, q: Quantity, g: nat)
    requires Writable(b, cfg, elemCtx)
    requires g < |BufferOf(b, q)|
    ensures |BufferOf(ApplyElement(b, cfg, elemCtx, pvt), q)| == |BufferOf(b, q)|
    ensures BufferOf(ApplyElement(b, cfg, elemCtx, pvt), q)[g] ==
            match LastDofAt(elemCtx, g)
            case Some(d) => if Enabled(cfg, q) then DofValue(q, d, pvt) else BufferOf(b, q)[g]
            case None => BufferOf(b, q)[g]
    decreases |elemCtx|
  {
    if elemCtx != [] {
      var prefix := elemCtx[..|elemCtx| - 1];
      var last := elemCtx[|elemCtx| - 1];
      assert Writable(b, cfg, prefix) by {
        assert forall i | 0 <= i < |prefix| :: prefix[i] == elemCtx[i];
      }
      var before := ApplyElement(b, cfg, prefix, pvt);
      ApplyElementSlot(b, cfg, prefix, pvt, q, g);
      assert InBounds(b, cfg, last.globalIndex);
      WritableSameShape(before, b, cfg, [last]);
      WriteDofBuffer(before, cfg, last, pvt, q);
    }
  }

  /** A buffer of a disabled quantity comes out of processing unchanged. */
  lemma {:induction false} DisabledBufferUntouched(b: Buffers, cfg: OutputConfig, elemCtx: ElementContext,
                                                   pvt: PvtFunctions, q: Quantity)
    requires Writable(b, cfg, elemCtx)
    requires !Enabled(cfg, q)
    ensures BufferOf(ApplyElement(b, cfg, elemCtx, pvt), q) == BufferOf(b, q)
    decreases |elemCtx|
  {
    if elemCtx != [] {
      var prefix := elemCtx[..|elemCtx| - 1];
      var last := elemCtx[|elemCtx| - 1];
      assert Writable(b, cfg, prefix) by {
        assert forall i | 0 <= i < |prefix| :: prefix[i] == elemCtx[i];
      }
      DisabledBufferUntouched(b, cfg, prefix, pvt, q);
      var before := ApplyElement(b, cfg, prefix, pvt);
      assert InBounds(b, cfg, last.globalIndex);
      WritableSameShape(before, b, cfg, [last]);
      WriteDofBuffer(before, cfg, last, pvt, q);
    }
  }

  /** Slots that no DOF of the element maps to are left unchanged. */
  lemma ProcessElementFrame(b: Buffers, cfg: OutputConfig, elemCtx: ElementContext,
                            pvt: PvtFunctions, q: Quantity, g: nat)
    requires Writable(b, cfg, elemCtx)
    requires g < |BufferOf(b, q)|
    requires forall i | 0 <= i < |elemCtx| :: elemCtx[i].globalIndex != g
    ensures |BufferOf(ApplyElement(b, cfg, elemCtx, pvt), q)| == |BufferOf(b, q)|
    ensures BufferOf(ApplyElement(b, cfg, elemCtx, pvt), q)[g] == BufferOf(b, q)[g]
  {
    ApplyElementSlot(b, cfg, elemCtx, pvt, q, g);
  }

  /** With distinct global indices, the last DOF at a DOF's index is that DOF. */
  lemma {:induction false} LastDofAtDistinct(elemCtx: ElementContext, i: nat)
    requires DistinctIndices(elemCtx)
    requires i < |elemCtx|
    ensures LastDofAt(elemCtx, elemCtx[i].globalIndex) == Some(elemCtx[i])
    decreases |elemCtx|
  {
    var n := |elemCtx|;
    if i < n - 1 {
      var prefix := elemCtx[..n - 1];
      assert prefix[i] == elemCtx[i];
      assert DistinctIndices(prefix) by {
        assert forall k | 0 <= k < |prefix| :: prefix[k] == elemCtx[k];
      }
      LastDofAtDistinct(prefix, i);
    }
  }

  /**
   * With distinct global indices, every enabled buffer holds, at each DOF's
   * global index, the value of its quantity at that DOF.
   */
  lemma ProcessedValueAt(b: Buffers, cfg: OutputConfig, elemCtx: ElementContext,
                         pvt: PvtFunctions, q: Quantity, i: nat)
    requires Writable(b, cfg, elemCtx) && DistinctIndices(elemCtx)
    requires i < |elemCtx| && Enabled(cfg, q)
    ensures elemCtx[i].globalIndex < |BufferOf(ApplyElement(b, cfg, elemCtx, pvt), q)|
    ensures BufferOf(ApplyElement(b, cfg, elemCtx, pvt), q)[elemCtx[i].globalIndex] ==
            DofValue(q, elemCtx[i], pvt)
  {
    var g := elemCtx[i].globalIndex;
    assert InBounds(b, cfg, g);
    InBoundsBuffer(b, cfg, g, q);
    LastDofAtDistinct(elemCtx, i);
    ApplyElementSlot(b, cfg, elemCtx, pvt, q, g);
  }

  /** Pressures are stored in bar: the fluid state's pressure divided by 1e5. */
  lemma PressuresStoredInBar(b: Buffers, cfg: OutputConfig, elemCtx: ElementContext,
                             pvt: PvtFunctions, i: nat, p: PhaseIdx)
    requires Writable(b, cfg, elemCtx) && DistinctIndices(elemCtx)
    requires i < |elemCtx| && cfg.pressuresOutput
    ensures elemCtx[i].globalIndex < |ApplyElement(b, cfg, elemCtx, pvt).pressure[p]|
    ensures ApplyElement(b, cfg, elemCtx, pvt).pressure[p][elemCtx[i].globalIndex] ==
            elemCtx[i].fluidState.pressure[p] / 100000.0
  {
    ProcessedValueAt(b, cfg, elemCtx, pvt, Pressure(p), i);
  }

  /** Saturations are stored as they are in the fluid state, for every phase. */
  lemma SaturationsStored(b: Buffers, cfg: OutputConfig, elemCtx: ElementContext,
                          pvt: PvtFunctions, i: nat, p: PhaseIdx)
    requires Writable(b, cfg, elemCtx) && DistinctIndices(elemCtx)
    requires i < |elemCtx| && cfg.saturationsOutput
    ensures elemCtx[i].globalIndex < |ApplyElement(b, cfg, elemCtx, pvt).saturation[p]|
    ensures ApplyElement(b, cfg, elemCtx, pvt).saturation[p][elemCtx[i].globalIndex] ==
            elemCtx[i].fluidState.saturation[p]
  {
    ProcessedValueAt(b, cfg, elemCtx, pvt, Saturation(p), i);
  }

  /**
   * RS, BG and BOSAT are the PVT evaluators at the oil pressure and the DOF's
   * region, PSAT the saturation-pressure evaluator at the mass fraction of gas
   * in oil; each is stored only under its own flag.
   */
  lemma PvtQuantitiesStored(b: Buffers, cfg: OutputConfig, elemCtx: ElementContext,
                            pvt: PvtFunctions, i: nat)
    requires Writable(b, cfg, elemCtx) && DistinctIndices(elemCtx)
    requires i < |elemCtx|
    ensures var r := ApplyElement(b, cfg, elemCtx, pvt);
            var d := elemCtx[i];
            var g := d.globalIndex;
            var po := d.fluidState.pressure[OilPhaseIdx];
            var xoG := d.fluidState.massFraction[OilPhaseIdx][GasCompIdx];
            (cfg.gasDissolutionFactorOutput ==>
               g < |r.gasDissolutionFactor| &&
               r.gasDissolutionFactor[g] == pvt.gasDissolutionFactor(po, d.pvtRegion)) &&
            (cfg.gasFormationVolumeFactorOutput ==>
               g < |r.gasFormationVolumeFactor| &&
               r.gasFormationVolumeFactor[g] == pvt.gasFormationVolumeFactor(po, d.pvtRegion)) &&
            (cfg.saturatedOilFormationVolumeFactorOutput ==>
               g < |r.saturatedOilFormationVolumeFactor| &&
               r.saturatedOilFormationVolumeFactor[g] == pvt.saturatedOilFormationVolumeFactor(po, d.pvtRegion)) &&
            (cfg.oilSaturationPressureOutput ==>
               g < |r.oilSaturationPressure| &&
               r.oilSaturationPressure[g] == pvt.oilSaturationPressure(xoG, d.pvtRegion))
  {
    if cfg.gasDissolutionFactorOutput {
      ProcessedValueAt(b, cfg, elemCtx, pvt, GasDissolutionFactor, i);
    }
    if cfg.gasFormationVolumeFactorOutput {
      ProcessedValueAt(b, cfg, elemCtx, pvt, GasFormationVolumeFactor, i);
    }
    if cfg.saturatedOilFormationVolumeFactorOutput {
      ProcessedValueAt(b, cfg, elemCtx, pvt, SaturatedOilFormationVolumeFactor, i);
    }
    if cfg.oilSaturationPressureOutput {
      ProcessedValueAt(b, cfg, elemCtx, pvt, OilSaturationPressure, i);
    }
  }

  /**
   * processElement overwrites rather than accumulates: processing the same
   * element twice leaves the buffers as processing it once.
   */
  lemma ProcessIdempotent(b: Buffers, cfg: OutputConfig, disc: Discretization,
                          elemCtx: ElementContext, pvt: PvtFunctions)
    requires disc == EcfvDiscretization ==> Writable(b, cfg, elemCtx)
    ensures disc == EcfvDiscretization ==> Writable(Process(b, cfg, disc, elemCtx, pvt), cfg, elemCtx)
    ensures Process(Process(b, cfg, disc, elemCtx, pvt), cfg, disc, elemCtx, pvt) ==
            Process(b, cfg, disc, elemCtx, pvt)
  {
    if disc == EcfvDiscretization {
      var once := ApplyElement(b, cfg, elemCtx, pvt);
      WritableSameShape(once, b, cfg, elemCtx);
      var twice := ApplyElement(once, cfg, elemCtx, pvt);
      forall q: Quantity
        ensures BufferOf(twice, q) == BufferOf(once, q)
      {
        forall g: nat | g < |BufferOf(b, q)|
          ensures g < |BufferOf(twice, q)| && BufferOf(twice, q)[g] == BufferOf(once, q)[g]
        {
          ApplyElementSlot(b, cfg, elemCtx, pvt, q, g);
          ApplyElementSlot(once, cfg, elemCtx, pvt, q, g);
        }
        SameShapeBuffer(once, b, q);
        SameShapeBuffer(twice, once, q);
      }
      BuffersEqual(twice, once);
    }
  }

  /** With every flag off, processing writes nothing and committing hands over nothing. */
  lemma AllDisabledProcessesNothing(b: Buffers, cfg: OutputConfig, disc: Discretization,
                                    elemCtx: ElementContext, pvt: PvtFunctions)
    requires !cfg.saturationsOutput && !cfg.pressuresOutput
    requires !cfg.gasDissolutionFactorOutput && !cfg.gasFormationVolumeFactorOutput
    requires !cfg.saturatedOilFormationVolumeFactorOutput && !cfg.oilSaturationPressureOutput
    ensures Writable(b, cfg, elemCtx)
    ensures Process(b, cfg, disc, elemCtx, pvt) == b
    ensures CommitLog(b, cfg, disc, true) == []
  {
    if disc == EcfvDiscretization {
      forall q: Quantity
        ensures BufferOf(ApplyElement(b, cfg, elemCtx, pvt), q) == BufferOf(b, q)
      {
        DisabledBufferUntouched(b, cfg, elemCtx, pvt, q);
      }
      BuffersEqual(ApplyElement(b, cfg, elemCtx, pvt), b);
    }
  }

  // ---------------------------------------------------------------------
  // commitBuffers
  // ---------------------------------------------------------------------

  /** EclName and QuantityNamed are inverse; oil saturation has no ECL name. */
  lemma EclNameRoundTrip(q: Quantity, name: string)
    ensures EclName(q) == Some(name) <==> QuantityNamed(name) == Some(q)
    ensures EclName(Saturation(OilPhaseIdx)) == None
  {
  }

  /**
   * An entry is committed exactly when the module is on the ECFV path, the
   * writer is an ECL writer, the entry's name is the ECL name of an enabled
   * quantity and the entry carries that quantity's buffer.
   */
  lemma CommitLogEntries(b: Buffers, cfg: OutputConfig, disc: Discretization, isEclWriter: bool, e: Entry)
    ensures e in CommitLog(b, cfg, disc, isEclWriter) <==>
            disc == EcfvDiscretization && isEclWriter &&
            QuantityNamed(e.name).Some? &&
            Enabled(cfg, QuantityNamed(e.name).value) &&
            e.data == BufferOf(b, QuantityNamed(e.name).value)
  {
    if disc == EcfvDiscretization && isEclWriter {
      PressureEntriesMembers(b, cfg, e);
      SaturationEntriesMembers(b, cfg, e);
      PvtEntriesMembers(b, cfg, e);
    }
  }

  /** The pressure group holds exactly the enabled phase pressures under their names. */
  lemma PressureEntriesMembers(b: Buffers, cfg: OutputConfig, e: Entry)
    ensures e in PressureEntries(b, cfg) <==>
            cfg.pressuresOutput && QuantityNamed(e.name).Some? && QuantityNamed(e.name).value.Pressure? &&
            e.data == BufferOf(b, QuantityNamed(e.name).value)
  {
    if QuantityNamed(e.name).Some? && QuantityNamed(e.name).value.Pressure? {
      assert e.name == "PRESSURE" || e.name == "PGAS" || e.name == "PWAT";
    }
  }

  /** The saturation group holds exactly the water and gas saturations under their names. */
  lemma SaturationEntriesMembers(b: Buffers, cfg: OutputConfig, e: Entry)
    ensures e in SaturationEntries(b, cfg) <==>
            cfg.saturationsOutput && QuantityNamed(e.name).Some? && QuantityNamed(e.name).value.Saturation? &&
            e.data == BufferOf(b, QuantityNamed(e.name).value)
  {
    if QuantityNamed(e.name).Some? && QuantityNamed(e.name).value.Saturation? {
      assert e.name == "SWAT" || e.name == "SGAS";
    }
  }

  /** The PVT group holds exactly the enabled PVT quantities under their names. */
  lemma PvtEntriesMembers(b: Buffers, cfg: OutputConfig, e: Entry)
    ensures e in PvtEntries(b, cfg) <==>
            QuantityNamed(e.name).Some? &&
            !QuantityNamed(e.name).value.Pressure? && !QuantityNamed(e.name).value.Saturation? &&
            Enabled(cfg, QuantityNamed(e.name).value) &&
            e.data == BufferOf(b, QuantityNamed(e.name).value)
  {
    if QuantityNamed(e.name).Some? &&
       !QuantityNamed(e.name).value.Pressure? && !QuantityNamed(e.name).value.Saturation? {
      assert e.name == "RS" || e.name == "BG" || e.name == "BOSAT" || e.name == "PSAT";
    }
  }

  /**
   * Oil saturation is never committed, under any configuration: every
   * committed entry names a quantity other than oil saturation and carries
   * that quantity's buffer.
   */
  lemma OilSaturationNeverCommitted(b: Buffers, cfg: OutputConfig, disc: Discretization, isEclWriter: bool)
    ensures forall e | e in CommitLog(b, cfg, disc, isEclWriter) ::
              QuantityNamed(e.name).Some? &&
              QuantityNamed(e.name).value != Saturation(OilPhaseIdx) &&
              e.data == BufferOf(b, QuantityNamed(e.name).value)
  {
    forall e | e in CommitLog(b, cfg, disc, isEclWriter)
      ensures QuantityNamed(e.name).Some? && QuantityNamed(e.name).value != Saturation(OilPhaseIdx)
      ensures e.data == BufferOf(b, QuantityNamed(e.name).value)
    {
      CommitLogEntries(b, cfg, disc, isEclWriter, e);
      EclNameRoundTrip(Saturation(OilPhaseIdx), e.name);
    }
  }

  /** The position of an ECL name in the order commitBuffers uses. */
  function CommitRank(name: string): nat
  {
    if name == "PRESSURE" then 0
    else if name == "PGAS" then 1
    else if name == "PWAT" then 2
    else if name == "SWAT" then 3
    else if name == "SGAS" then 4
    else if name == "RS" then 5
    else if name == "BG" then 6
    else if name == "BOSAT" then 7
    else 8
  }

  /** The commit rank of each of the nine ECL names. */
  lemma CommitRanks()
    ensures CommitRank("PRESSURE") == 0 && CommitRank("PGAS") == 1 && CommitRank("PWAT") == 2
    ensures CommitRank("SWAT") == 3 && CommitRank("SGAS") == 4
    ensures CommitRank("RS") == 5 && CommitRank("BG") == 6
    ensures CommitRank("BOSAT") == 7 && CommitRank("PSAT") == 8
  {
  }

  /** The names of a log appear in strictly increasing commit order. */
  predicate RanksIncrease(log: seq<Entry>)
  {
    forall i, j | 0 <= i < j < |log| :: CommitRank(log[i].name) < CommitRank(log[j].name)
  }

  /** Two logs in commit order, the first wholly before the second, concatenate in commit order. */
  lemma RanksIncreaseConcat(a: seq<Entry>, c: seq<Entry>)
    requires RanksIncrease(a) && RanksIncrease(c)
    requires forall x, y | x in a && y in c :: CommitRank(x.name) < CommitRank(y.name)
    ensures RanksIncrease(a + c)
  {
    forall i, j | 0 <= i < j < |a + c|
      ensures CommitRank((a + c)[i].name) < CommitRank((a + c)[j].name)
    {
      if j < |a| {
      } else if i >= |a| {
        assert (a + c)[i] == c[i - |a|] && (a + c)[j] == c[j - |a|];
      } else {
        assert (a + c)[i] in a && (a + c)[j] in c;
      }
    }
  }

  /** The PVT group is in commit order, after every pressure and saturation. */
  lemma PvtEntriesRanks(b: Buffers, cfg: OutputConfig)
    ensures RanksIncrease(PvtEntries(b, cfg))
    ensures forall x | x in PvtEntries(b, cfg) :: 5 <= CommitRank(x.name)
  {
    CommitRanks();
    var rs := Optional(cfg.gasDissolutionFactorOutput, Entry("RS", b.gasDissolutionFactor));
    var bg := Optional(cfg.gasFormationVolumeFactorOutput, Entry("BG", b.gasFormationVolumeFactor));
    var bo := Optional(cfg.saturatedOilFormationVolumeFactorOutput,
                       Entry("BOSAT", b.saturatedOilFormationVolumeFactor));
    var ps := Optional(cfg.oilSaturationPressureOutput, Entry("PSAT", b.oilSaturationPressure));
    assert forall x | x in rs :: CommitRank(x.name) == 5;
    AppendOptional(rs, cfg.gasFormationVolumeFactorOutput, Entry("BG", b.gasFormationVolumeFactor));
    AppendOptional(rs + bg, cfg.saturatedOilFormationVolumeFactorOutput,
                   Entry("BOSAT", b.saturatedOilFormationVolumeFactor));
    AppendOptional(rs + bg + bo, cfg.oilSaturationPressureOutput, Entry("PSAT", b.oilSaturationPressure));
  }

  /** Appending an optional entry ranked after a whole log keeps the log in commit order. */
  lemma AppendOptional(log: seq<Entry>, enabled: bool, e: Entry)
    requires RanksIncrease(log)
    requires 5 <= CommitRank(e.name)
    requires forall x | x in log :: 5 <= CommitRank(x.name) < CommitRank(e.name)
    ensures RanksIncrease(log + Optional(enabled, e))
    ensures forall x | x in log + Optional(enabled, e) :: 5 <= CommitRank(x.name) <= CommitRank(e.name)
  {
    if enabled {
      assert log + Optional(enabled, e) == log + [e];
      forall i, j | 0 <= i < j < |log + [e]|
        ensures CommitRank((log + [e])[i].name) < CommitRank((log + [e])[j].name)
      {
        assert (log + [e])[i] in log;
      }
    } else {
      assert log + Optional(enabled, e) == log;
    }
  }

  /**
   * Every commit follows the order in which commitBuffers commits (PRESSURE, PGAS, PWAT,
   * SWAT, SGAS, RS, BG, BOSAT, PSAT), whatever the flags, so no name is
   * committed twice in one commit.
   */
  lemma CommitNamesDistinct(b: Buffers, cfg: OutputConfig, disc: Discretization, isEclWriter: bool)
    ensures RanksIncrease(CommitLog(b, cfg, disc, isEclWriter))
    ensures var log := CommitLog(b, cfg, disc, isEclWriter);
            forall i, j | 0 <= i < j < |log| :: log[i].name != log[j].name
  {
    if disc == EcfvDiscretization && isEclWriter {
      var pressures := PressureEntries(b, cfg);
      var saturations := SaturationEntries(b, cfg);
      CommitRanks();
      assert RanksIncrease(pressures) && forall x | x in pressures :: CommitRank(x.name) < 3;
      assert RanksIncrease(saturations) && forall x | x in saturations :: 3 <= CommitRank(x.name) < 5;
      PvtEntriesRanks(b, cfg);
      RanksIncreaseConcat(pressures, saturations);
      RanksIncreaseConcat(pressures + saturations, PvtEntries(b, cfg));
    }
  }

  /** Under the default configuration an ECL writer receives all nine fields, in this order. */
  lemma DefaultConfigCommitsAll(b: Buffers)
    ensures Names(CommitLog(b, DefaultConfig, EcfvDiscretization, true)) ==
            ["PRESSURE", "PGAS", "PWAT", "SWAT", "SGAS", "RS", "BG", "BOSAT", "PSAT"]
  {
  }

  /**
   * Committing right after allocation hands over only freshly sized
   * buffers of `numDof` zero slots.
   */
  lemma AllocateThenCommit(b: Buffers, cfg: OutputConfig, numDof: nat)
    ensures forall e | e in CommitLog(Allocate(b, cfg, EcfvDiscretization, numDof), cfg, EcfvDiscretization, true) ::
              e.data == Resized(numDof) && |e.data| == numDof
  {
    var a := Allocate(b, cfg, EcfvDiscretization, numDof);
    forall e | e in CommitLog(a, cfg, EcfvDiscretization, true)
      ensures e.data == Resized(numDof)
    {
      CommitLogEntries(a, cfg, EcfvDiscretization, true, e);
      AllocateBuffer(b, cfg, EcfvDiscretization, numDof, QuantityNamed(e.name).value);
    }
  }

  // ---------------------------------------------------------------------
  // A whole output step
  // ---------------------------------------------------------------------

  /** The configuration that writes pressures only. */
  const PressuresOnly := OutputConfig(false, true, false, false, false, false)

  /**
   * Only pressures enabled, one element with one DOF at oil and gas
   * pressure 2.5e7 Pa and water pressure 2.6e7 Pa: an ECL writer receives
   * exactly PRESSURE = [250], PGAS = [250], PWAT = [260].
   */
  lemma PressuresOnlyStep(pvt: PvtFunctions, fs: FluidState, region: int)
    requires fs.pressure[OilPhaseIdx] == 25000000.0 && fs.pressure[GasPhaseIdx] == 25000000.0
    requires fs.pressure[WaterPhaseIdx] == 26000000.0
    ensures Writable(Allocate(Unallocated, PressuresOnly, EcfvDiscretization, 1), PressuresOnly, [Dof(0, fs, region)])
    ensures CommitLog(Process(Allocate(Unallocated, PressuresOnly, EcfvDiscretization, 1), PressuresOnly,
                              EcfvDiscretization, [Dof(0, fs, region)], pvt),
                      PressuresOnly, EcfvDiscretization, true) ==
            [Entry("PRESSURE", [250.0]), Entry("PGAS", [250.0]), Entry("PWAT", [260.0])]
  {
    var elemCtx := [Dof(0, fs, region)];
    var sized := Allocate(Unallocated, PressuresOnly, EcfvDiscretization, 1);
    AllocatedAcceptsElement(Unallocated, PressuresOnly, 1, elemCtx);
    var r := ApplyElement(sized, PressuresOnly, elemCtx, pvt);
    forall p: PhaseIdx
      ensures r.pressure[p] == [InBar(fs.pressure[p])]
    {
      PressuresStoredInBar(sized, PressuresOnly, elemCtx, pvt, 0, p);
      AllocateBuffer(Unallocated, PressuresOnly, EcfvDiscretization, 1, Pressure(p));
    }
  }

  /** Off the ECFV path all three steps leave the buffers and the writer as they are. */
  lemma OtherDiscretizationIsInert(b: Buffers, cfg: OutputConfig, numDof: nat, elemCtx: ElementContext,
                                   pvt: PvtFunctions, isEclWriter: bool)
    ensures Allocate(b, cfg, OtherDiscretization, numDof) == b
    ensures Process(b, cfg, OtherDiscretization, elemCtx, pvt) == b
    ensures CommitLog(b, cfg, OtherDiscretization, isEclWriter) == []
  {
  }

  /**
   * The pressures-only step run through the module itself: construct it,
   * allocate for one DOF, process the one-DOF element and commit to a fresh
   * ECL writer, whose log is then the three pressures in bar.
   */
  method RunPressuresOnlyStep(pvt: PvtFunctions, fs: FluidState, region: int) returns (log: seq<Entry>)
    requires fs.pressure[OilPhaseIdx] == 25000000.0 && fs.pressure[GasPhaseIdx] == 25000000.0
    requires fs.pressure[WaterPhaseIdx] == 26000000.0
    ensures log == [Entry("PRESSURE", [250.0]), Entry("PGAS", [250.0]), Entry("PWAT", [260.0])]
  {
    var outputModule := new EclOutputBlackOilModule(EcfvDiscretization, PressuresOnly);
    outputModule.AllocBuffers(1);
    PressuresOnlyStep(pvt, fs, region);
    outputModule.ProcessElement([Dof(0, fs, region)], pvt);
    var writer := new OutputWriter(true);
    outputModule.CommitBuffers(writer);
    log := writer.log;
  }
}
