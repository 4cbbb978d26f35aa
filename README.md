# ECL output module of the black-oil simulator, in Dafny

This project models `EclOutputBlackOilModule`, the output module of the ebos
black-oil simulator that collects per-degree-of-freedom scalar fields for the
ECL result files. The module owns these buffers:

- one saturation buffer per phase;
- one pressure buffer per phase;
- one buffer each for the gas dissolution factor (RS), the gas formation volume
  factor (BG), the formation volume factor of saturated oil (BOSAT) and the oil
  saturation pressure (PSAT).

Each output step runs three operations:

- `allocBuffers` sizes the buffer of every enabled quantity.
- `processElement` writes the values of an element's primary degrees of freedom
  at their global indices.
- `commitBuffers` hands every enabled buffer except the oil saturation to an
  ECL writer under fixed keywords.

Six boolean flags gate each step. All six default to true. The whole pipeline
runs only for the element-centred finite-volume discretization (ECFV), and
`commitBuffers` does nothing for a writer that is not an ECL writer.

Files:

- `fluidsystem.dfy` (module `BlackOilFluidSystem`): the three phases, the per-DOF
  fluid state, and the four PVT evaluators. The evaluators are passed in as
  uninterpreted functions.
- `ecloutput.dfy` (module `EclOutput`): the configuration, the buffers, and the
  writer as a log of named buffers. It also holds the module as a class whose
  buffer fields `AllocBuffers` and `ProcessElement` reassign. Pure functions state what each step
  does: `Allocate`, `WriteDof`/`ApplyElement`/`Process` and `CommitLog`. The
  methods are proved against them. A per-quantity view (`Enabled`, `BufferOf`,
  `DofValue`, `EclName`, `QuantityNamed`) gives the lemmas an independent way to
  name any buffer, its value at a DOF and its keyword.
- `ecloutput_properties.dfy` (module `EclOutputProperties`): the properties of
  the three steps, proved against that per-quantity view, and one whole output
  step run through the class.

Two details of the code that the model keeps:

- A disabled quantity's buffer is not touched by `allocBuffers`. It keeps
  whatever it held; it is not emptied.
- PSAT is committed without the buffer-type argument that the other eight
  fields pass.

## Model

| member | source | states |
|---|---|---|
| `EclOutput.EclOutputBlackOilModule.constructor` | applications/ebos/ecloutputblackoilmodule.hh:94-96 | a new module has the given configuration and discretization, and all its buffers are empty, since the constructor leaves the buffer fields of lines 255-260 default-constructed |
| `EclOutput.EclOutputBlackOilModule.AllocBuffers` | applications/ebos/ecloutputblackoilmodule.hh:128-150 | the new buffers are `Allocate` of the old ones: on ECFV every enabled group is resized to the DOF count passed to this call (each phase for saturations and pressures), the others are untouched; off ECFV nothing changes |
| `EclOutput.EclOutputBlackOilModule.ResizePhases` | applications/ebos/ecloutputblackoilmodule.hh:134-141 | the phase loop resizes the buffer of every phase `0..numPhases-1` |
| `EclOutput.EclOutputBlackOilModule.ProcessElement` | applications/ebos/ecloutputblackoilmodule.hh:156-201 | the new buffers are `Process` of the old ones: the element's DOFs are written in local order on ECFV, and nothing changes off ECFV |
| `EclOutput.EclOutputBlackOilModule.ProcessDof` | applications/ebos/ecloutputblackoilmodule.hh:162-199 | one pass of the DOF loop turns the buffers into `WriteDof` of them |
| `EclOutput.EclOutputBlackOilModule.StorePhases` | applications/ebos/ecloutputblackoilmodule.hh:169-178 | the phase loop overwrites slot `globalDofIdx` of every phase's buffer with that phase's value and nothing else |
| `EclOutput.EclOutputBlackOilModule.CommitBuffers` | applications/ebos/ecloutputblackoilmodule.hh:206-234 | the writer's log grows by exactly `CommitLog`. That is nothing off ECFV or for a non-ECL writer; otherwise PRESSURE, PGAS, PWAT, SWAT, SGAS, RS, BG, BOSAT, PSAT, in that order, each under its flag |
| `EclOutput.EclOutputBlackOilModule.CommitPhaseBuffers` | applications/ebos/ecloutputblackoilmodule.hh:215-225 | the oil, gas and water pressures go out as PRESSURE, PGAS, PWAT, then the water and gas saturations as SWAT, SGAS; the oil saturation is not committed |
| `EclOutput.EclOutputBlackOilModule.CommitPvtBuffers` | applications/ebos/ecloutputblackoilmodule.hh:226-233 | RS, BG, BOSAT and PSAT are appended, each only under its own flag |
| `EclOutput.OutputWriter.CommitScalarBuffer` | applications/ebos/ecloutputblackoilmodule.hh:216-233 | committing a buffer appends exactly one (name, buffer) pair to the writer's log |
| `EclOutput.WriteDof` | applications/ebos/ecloutputblackoilmodule.hh:161-199 | writing one DOF never changes the length of any buffer; the values it writes are stated by `WriteDofBuffer` |
| `EclOutput.ApplyElement` | applications/ebos/ecloutputblackoilmodule.hh:161-200 | writing a whole element never changes the length of any buffer; the slot contents are stated by `ApplyElementSlot` |
| `EclOutputProperties.AllocateBuffer` | applications/ebos/ecloutputblackoilmodule.hh:133-149 | after allocation a quantity's buffer is a fresh buffer of `numDof` slots if and only if it is enabled and the discretization is ECFV; otherwise it is the old buffer |
| `EclOutputProperties.AllocateIdempotent` | applications/ebos/ecloutputblackoilmodule.hh:128-150 | allocating twice gives the same buffers as allocating once |
| `EclOutputProperties.AllocatedAcceptsElement` | applications/ebos/ecloutputblackoilmodule.hh:133-149 | after allocation on ECFV, any element whose global indices are below the DOF count can be processed |
| `EclOutputProperties.WriteDofBuffer` | applications/ebos/ecloutputblackoilmodule.hh:162-199 | one DOF sets slot `globalIndex` of each enabled quantity's buffer to that quantity's value at the DOF, and leaves disabled buffers unchanged |
| `EclOutputProperties.ApplyElementSlot` | applications/ebos/ecloutputblackoilmodule.hh:161-200 | after an element, slot `g` of an enabled buffer holds the value of the last DOF at `g`. If no DOF is at `g`, or the quantity is disabled, the slot keeps its old value. Lengths never change |
| `EclOutputProperties.LastDofAtIsLast` | applications/ebos/ecloutputblackoilmodule.hh:161-162 | the DOF whose value `ApplyElementSlot` puts at slot `g` is the last DOF in local order at `g`: no later DOF of the element has that global index |
| `EclOutputProperties.DisabledBufferUntouched` | applications/ebos/ecloutputblackoilmodule.hh:168-199 | processing never changes the buffer of a disabled quantity |
| `EclOutputProperties.ProcessElementFrame` | applications/ebos/ecloutputblackoilmodule.hh:161-200 | a slot that is not the global index of any of the element's DOFs is unchanged |
| `EclOutputProperties.ProcessedValueAt` | applications/ebos/ecloutputblackoilmodule.hh:161-199 | with distinct global indices, each enabled buffer holds at each DOF's index that quantity's value at that DOF |
| `EclOutputProperties.PressuresStoredInBar` | applications/ebos/ecloutputblackoilmodule.hh:174-178 | with pressures enabled, `pressure[p]` at a DOF's global index is the fluid state's pressure of phase `p` divided by 1e5, for every phase |
| `EclOutputProperties.SaturationsStored` | applications/ebos/ecloutputblackoilmodule.hh:168-173 | with saturations enabled, `saturation[p]` at a DOF's global index is the fluid state's saturation of phase `p`, for every phase |
| `EclOutputProperties.PvtQuantitiesStored` | applications/ebos/ecloutputblackoilmodule.hh:180-199 | RS, BG and BOSAT come from the oil pressure and the DOF's PVT region. PSAT comes from the mass fraction of gas in oil and the region. Each is stored only under its own flag |
| `EclOutputProperties.ProcessIdempotent` | applications/ebos/ecloutputblackoilmodule.hh:161-200 | processing the same element twice gives the same buffers as processing it once: slots are overwritten, never accumulated |
| `EclOutputProperties.AllDisabledProcessesNothing` | applications/ebos/ecloutputblackoilmodule.hh:156-233 | with all six flags off, processing changes no buffer and committing hands over nothing |
| `EclOutputProperties.OtherDiscretizationIsInert` | applications/ebos/ecloutputblackoilmodule.hh:130-131 | off ECFV, allocation, processing and commit are all no-ops (the same guard is at 158-159 and 208-209) |
| `EclOutputProperties.EclNameRoundTrip` | applications/ebos/ecloutputblackoilmodule.hh:215-233 | a quantity's ECL keyword and the quantity a keyword stands for are inverse. Oil saturation has no keyword |
| `EclOutputProperties.CommitLogEntries` | applications/ebos/ecloutputblackoilmodule.hh:206-233 | an entry is committed if and only if the discretization is ECFV, the writer is an ECL writer, the entry's name is the keyword of an enabled quantity, and the entry carries that quantity's buffer |
| `EclOutputProperties.PressureEntriesMembers` | applications/ebos/ecloutputblackoilmodule.hh:215-219 | the pressure group holds exactly the three phase pressures under their keywords, when pressures are enabled |
| `EclOutputProperties.SaturationEntriesMembers` | applications/ebos/ecloutputblackoilmodule.hh:220-225 | the saturation group holds exactly the water and gas saturations under their keywords, when saturations are enabled |
| `EclOutputProperties.PvtEntriesMembers` | applications/ebos/ecloutputblackoilmodule.hh:226-233 | the PVT group holds exactly the enabled PVT quantities under their keywords |
| `EclOutputProperties.OilSaturationNeverCommitted` | applications/ebos/ecloutputblackoilmodule.hh:220-225 | under every configuration and writer, each committed entry carries the buffer of a quantity other than oil saturation |
| `EclOutputProperties.CommitNamesDistinct` | applications/ebos/ecloutputblackoilmodule.hh:215-233 | under every configuration the log is in commit order (PRESSURE, PGAS, PWAT, SWAT, SGAS, RS, BG, BOSAT, PSAT, skipping disabled ones), so no keyword is committed twice in one commit |
| `EclOutputProperties.PvtEntriesRanks` | applications/ebos/ecloutputblackoilmodule.hh:226-233 | the PVT keywords follow the commit order RS, BG, BOSAT, PSAT and come after every pressure and saturation |
| `EclOutputProperties.DefaultConfigCommitsAll` | applications/ebos/ecloutputblackoilmodule.hh:51-56 | with the default flags (all true), an ECL writer receives all nine fields, in commit order |
| `EclOutputProperties.AllocateThenCommit` | applications/ebos/ecloutputblackoilmodule.hh:128-234 | committing straight after allocation hands over only freshly sized buffers of `numDof` slots |
| `EclOutputProperties.PressuresOnlyStep` | applications/ebos/ecloutputblackoilmodule.hh:174-219 | only pressures enabled, one DOF at 2.5e7 Pa (oil, gas) and 2.6e7 Pa (water): the commit is exactly PRESSURE [250], PGAS [250], PWAT [260] |
| `EclOutputProperties.RunPressuresOnlyStep` | applications/ebos/ecloutputblackoilmodule.hh:94-234 | the same step run through the class (constructor, AllocBuffers, ProcessElement, CommitBuffers, fresh ECL writer) leaves exactly those three entries in the writer's log |

## Left out

- `registerParameters` and the `EWOMS_GET_PARAM` flag queries (lines 102-122 and 237-253) are not modelled. The six flags are the fields of the `OutputConfig` record, fixed for the module's lifetime. `DefaultConfig` has them all true, as the property defaults at lines 51-56 do.
- The type test `std::is_same<Discretization, EcfvDiscretization>` becomes the `Discretization` tag. The type test `dynamic_cast<EclWriter*>` becomes the writer's `isEclWriter` flag.
- `BaseOutputModule::resizeScalarBuffer_` is not part of this model. A resized buffer is modelled as `numDof` slots that all hold 0.0. `numDof` stands for the element count of the grid view at the time of the call and is a parameter of `AllocBuffers`, so a reallocation after the grid changes size gets the new size. The old contents are discarded.
- The buffer-type argument (`ElementBuffer`) is not modelled, for resizing or for committing. PSAT passes no buffer type at line 233, so its default type is not known here.
- `EclWriter` and `BaseOutputModule::commitScalarBuffer_` are not part of this model. Committing appends a (name, buffer) pair to the writer's log.
- The `Valgrind::CheckDefined` calls are debug instrumentation and have no effect on the buffers.
- The FluidSystem PVT evaluators are uninterpreted function parameters. The phase and component indices (water 0, oil 1, gas 2; gas component 2) are those of the black-oil fluid system, which is not part of this model. The proofs rely only on the three phase indices being distinct and below three.
- Scalars are `real`, so dividing a pressure by 1e5 is exact. Double-precision rounding is not modelled.
- The element context is a sequence of primary DOFs at time index 0: global index, fluid state and PVT region. Other time indices are never read by the source.
- The source does not check global indices. `ProcessElement` therefore requires each DOF's global index to lie inside every enabled buffer.
- PressuresStoredInBar, SaturationsStored, PvtQuantitiesStored and ProcessedValueAt assume the element's DOFs have distinct global indices. The general case, where the last DOF at an index wins, is `ApplyElementSlot`.
- The parallel element traversal and its shared-buffer discipline are not modelled. All calls are sequential.
