# msr-safe supplemental whitelist for family 06 model 2D, in Dafny

msr-safe lets unprivileged users read and write model-specific registers (MSRs) through a
whitelist. `msr-supplemental.h` holds the whitelist for Sandy Bridge Xeon E5 processors
(family 06, model 2D). It is an X-macro list, `SMSR_ENTRIES`, with one row per register:
a symbolic name, the register's address, and a 32-bit write mask for each half of the
64-bit register. The list is bracketed by two sentinels, `NO_SUCH_SMSR` first and
`SMSR_LAST_ENTRY` last. Reads return the whole register. A write is a read-modify-write:
the committed value is `(current & ~mask) | (requested & mask)`, where the mask is
`(high << 32) | low`.

The model has five modules:

- `Bits`: bit `k` of a 64-bit value, splitting a value into its 32-bit halves and joining them back.
- `Registers`: the table, slot by slot. It covers the enumeration the X-macro generates
  (a name's value is its slot) and the facts about slots, sentinels and addresses.
- `Lookup`: resolving a name or a raw address to a row, or to "not found".
  - By name: the name's own row, unless it is a sentinel.
  - By address: the first real row at that address.
- `Policy`: the masked access rule.
  - Registers are a map from address to value.
  - A read returns the stored value.
  - A write merges the request under the row's mask and stores the result.
  - An unknown register gives `UnsupportedRegister`; an address the map lacks gives `HardwareAccessError`.
- `Audit`: what the table's contents mean for each register.
  - Which registers are read-only, fully writable, or writable in the low half only.
  - Which bits the partly writable registers let a caller change.
  - Where the masks and the comments beside them disagree.

The lookup routines that use the table live outside `msr-supplemental.h` and are not part of
this model's source. `Lookup.ByName` models indexing the table by the generated enumeration
value. `Lookup.ByAddress` models a first-match scan over the rows between the sentinels.

## Model

| member | source | states |
|---|---|---|
| Registers.Descriptor | msr-supplemental.h:202-256 | the row a name selects carries that very name |
| Registers.Row | msr-supplemental.h:203-256 | the list's rows in the header's order; a row is at address 0 exactly when it is the first or the last slot, the two sentinels |
| Registers.Index | msr-supplemental.h:202-256 | every name the list generates gets a slot number below the list's length, and the first or last number exactly when it is a sentinel |
| Registers.Table | msr-supplemental.h:202-256 | the list as a sequence: 54 slots, slot i holding row i |
| Registers.IndexSlot | msr-supplemental.h:202-256 | every name's enumeration value is a slot of the list, and that slot holds the name's own row |
| Registers.SentinelSlots | msr-supplemental.h:203-256 | a name takes the first or the last slot exactly when it is one of the two sentinels |
| Registers.Sentinels | msr-supplemental.h:203-256 | NO_SUCH_SMSR is the first row and SMSR_LAST_ENTRY the last, both at address 0 with nothing writable |
| Registers.FixedCounterSlots | msr-supplemental.h:236-237 | FIXED_CTR1 and FIXED_CTR2 are in consecutive slots, both at address 0x30A |
| Registers.SlotFacts | msr-supplemental.h:202-256 | each slot's name has that slot as its enumeration value; each slot between the sentinels is a real register at a nonzero address whose first listed owner is itself (FIXED_CTR1 for FIXED_CTR2) |
| Registers.RealAddressNonZero | msr-supplemental.h:204-255 | no real register uses the sentinels' address 0 |
| Registers.SameAddress | msr-supplemental.h:204-255 | two real registers share an address only if they are equal or are FIXED_CTR1 and FIXED_CTR2 |
| Registers.RowIsDescriptor | msr-supplemental.h:202-256 | the row in any slot is the descriptor its own name selects |
| Registers.AddressesDistinct | msr-supplemental.h:204-255 | real slots have nonzero, pairwise distinct addresses, except FIXED_CTR1 before FIXED_CTR2 at 0x30A |
| Lookup.FindAddress | msr-supplemental.h:202-256 | a found slot lies in the searched range and has the address, with no earlier slot in the range having it; not found means no slot in the range has it |
| Lookup.FindFirst | msr-supplemental.h:202-256 | the search stops at the first slot with the address |
| Lookup.ByName | msr-supplemental.h:202-256 | lookup by name fails exactly for the sentinels; otherwise it returns the name's row, which sits strictly between the sentinels |
| Lookup.ByAddress | msr-supplemental.h:202-256 | lookup by address fails exactly when no real slot has the address; otherwise it returns the first real row with that address |
| Lookup.Resolve | msr-supplemental.h:202-256 | an id never resolves to a sentinel; by name it fails exactly for the sentinels and otherwise gives the name's own row; by address it fails exactly when no real row has the address and otherwise gives a row at that address |
| Lookup.FirstSlotAt | msr-supplemental.h:202-256 | a real slot that shares its address with no earlier real slot is what its address finds |
| Lookup.SentinelsNeverResolve | msr-supplemental.h:203-256 | neither sentinel names a register, address 0 resolves to nothing, and no id of either kind resolves to a sentinel row |
| Lookup.NameAddressRoundTrip | msr-supplemental.h:204-255 | for every real register but FIXED_CTR2, lookup by its address finds what lookup by its name finds |
| Lookup.FirstAtFixedCounterAddress | msr-supplemental.h:236-237 | address 0x30A finds slot 33, FIXED_CTR1's |
| Lookup.FixedCounter1ByName | msr-supplemental.h:236 | FIXED_CTR1 by name is the row in slot 33 |
| Lookup.FixedCounterTieBreak | msr-supplemental.h:236-237 | both fixed counters 1 and 2 are at 0x30A, and FIXED_CTR2's address resolves to FIXED_CTR1 |
| Lookup.MissesFixedCounter2 | msr-supplemental.h:236-237 | no address finds FIXED_CTR2's slot |
| Lookup.FixedCounter2OnlyByName | msr-supplemental.h:236-237 | FIXED_CTR2 resolves by name, but no address resolves to it |
| Policy.WriteMask | msr-supplemental.h:199-201 | the 64-bit mask's low half is the row's low write mask and its high half the row's high write mask |
| Policy.Merge | msr-supplemental.h:35-40 | the committed value agrees with the current value outside the mask and with the request inside it |
| Policy.ReadRegister | msr-supplemental.h:16-18 | a read returns the whole, unmasked register; unknown registers and addresses the hardware rejects give their own errors |
| Policy.WriteRegister | msr-supplemental.h:35-40 | a write of a known, present register stores the merge of the current value and the request under the mask at that address and nowhere else; the failures match the read's |
| Policy.Read | msr-supplemental.h:16-18 | a read by name or address is unsupported exactly when the id resolves to nothing; it succeeds exactly when the resolved address is present, and then returns the whole, unmasked value there |
| Policy.Write | msr-supplemental.h:35-40 | a write by name or address is unsupported exactly when the id resolves to nothing; otherwise it commits the merge of the current value and the request under the resolved row's mask, at that address only |
| Policy.MergeBit | msr-supplemental.h:20-28 | a bit with mask 0 keeps its value and a bit with mask 1 takes the requested value |
| Policy.MergeBits | msr-supplemental.h:20-28 | the same, for all 64 bits at once |
| Policy.MergeUnique | msr-supplemental.h:35-40 | the two clauses of the merge's contract determine the committed value |
| Policy.MergeByHalves | msr-supplemental.h:199-201 | merging each 32-bit half with its own half-mask agrees with the 64-bit merge |
| Policy.MergeCurrent | msr-supplemental.h:30-33 | writing back the value read changes nothing, as the guidance on reserved bits asks |
| Policy.MergeIdempotent | msr-supplemental.h:35-40 | merging the same request twice gives what merging it once gives |
| Policy.MergeExtremes | msr-supplemental.h:7-10 | under SMSR_NOWRITE in both halves a write keeps the old value; under SMSR_WRITEALL in both it stores the request |
| Policy.ReadWriteFailAlike | msr-supplemental.h:35-40 | with registers as a map from address to value, a read and a write of the same register fail together and with the same error (see WriteRegister under Left out) |
| Policy.ReadAfterWrite | msr-supplemental.h:35-40 | reading a register just written returns the committed value |
| Policy.WriteBackIsNoOp | msr-supplemental.h:30-40 | writing back the value just read commits it and leaves every register as it was |
| Policy.WriteIdempotent | msr-supplemental.h:35-40 | repeating a write commits the same value and leaves the same registers |
| Audit.SlotClassified | msr-supplemental.h:203-256 | every row is read-only, fully writable or low-half-only exactly when its name is in the matching group |
| Audit.DescriptorClassified | msr-supplemental.h:203-256 | the same classification, read off the row a name selects |
| Audit.ReadOnlyClassified | msr-supplemental.h:203-256 | a real register's mask is 0 exactly when it is one of the read-only registers (time stamp counter, platform id, MPERF/APERF, PERF_STATUS, PERF_CAPABILITIES and the RAPL status and info registers) |
| Audit.FullyWritableClassified | msr-supplemental.h:203-256 | a real register's mask is all ones exactly when it is a PMC, a fixed counter or a RAPL power limit |
| Audit.EventSelectsClassified | msr-supplemental.h:79-82 | a real register's mask is 0xFFFFFFFF exactly when it is one of PERFEVTSEL0-7 |
| Audit.NamedAccess | msr-supplemental.h:202-256 | a read or write by name reaches the register's own row |
| Audit.ReadOnlyWriteIsNoOp | msr-supplemental.h:23-26 | a write to a read-only register commits the value already there and changes nothing |
| Audit.FullyWritableStoresRequest | msr-supplemental.h:71-74 | a write to a fully writable register stores the request, and a read then returns it |
| Audit.EventSelectKeepsHighHalf | msr-supplemental.h:79-82 | a write to PERFEVTSELn takes the requested low half and keeps the reserved high half |
| Audit.PerfEvtSelMask | msr-supplemental.h:79-82 | PERFEVTSELn: bits 31:0 writable, bits 63:32 not |
| Audit.PerfCtlMask | msr-supplemental.h:90-98 | PERF_CTL is at 0x199 and bit 32 is its only writable bit |
| Audit.PerfCtlOnlyTurboBit | msr-supplemental.h:90-98 | a write to PERF_CTL changes bit 32 only, at 0x199 only |
| Audit.MiscEnableMask | msr-supplemental.h:128-148 | MISC_ENABLE is at 0x1A0 and bits 16 and 38 are its only writable bits |
| Audit.MiscEnableOnlySpeedstepAndTurbo | msr-supplemental.h:128-148 | a write to MISC_ENABLE changes bits 16 and 38 only, at 0x1A0 only |
| Audit.MiscEnableExample | msr-supplemental.h:128-138 | clearing SpeedStep and turbo on a register with fast strings enabled leaves fast strings enabled |
| Audit.ClockModulationMask | msr-supplemental.h:100-102 | CLOCK_MODULATION's writable bits are 2:0, so bits 3 and 4, which the comment calls used, cannot be written |
| Audit.ThermInterruptMask | msr-supplemental.h:104-106 | THERM_INTERRUPT's writable bits are 3:0 and 24:8; bit 4, which the comment calls used, is not writable |
| Audit.ThermStatusMask | msr-supplemental.h:108-126 | THERM_STATUS's writable bits are exactly the clear-by-writing-zero log bits 1, 3, 5, 7, 9 and 11 |
| Audit.OffcoreRsp0Mask | msr-supplemental.h:150-152 | OFFCORE_RSP_0's writable bits are 11:0 and 37:15 |
| Audit.OffcoreRsp1Mask | msr-supplemental.h:150-152 | OFFCORE_RSP_1's writable bits are 11:0 and 37:15 |
| Audit.EnergyPerfBiasMask | msr-supplemental.h:154-156 | ENERGY_PERF_BIAS's writable bits are 3:0 |
| Audit.PackageThermStatusMask | msr-supplemental.h:158-160 | PACKAGE_THERM_STATUS's writable bits are the even bits 0 to 10, so none of the odd bits 1 to 11 the comment names is writable |
| Audit.PackageThermInterruptMask | msr-supplemental.h:162-165 | PACKAGE_THERM_INTERRUPT's writable bits are 2:0 and 24:8, with bit 4 left out |
| Audit.FixedCtrCtrlMask | msr-supplemental.h:174-176 | FIXED_CTR_CTRL's writable bits are 1:0, 5:3, 9:7 and 11 |
| Audit.PerfGlobalStatusMask | msr-supplemental.h:178-180 | PERF_GLOBAL_STATUS's writable bits are 1:0, 34:32 and 63:62 |
| Audit.PerfGlobalCtrlMask | msr-supplemental.h:182-184 | PERF_GLOBAL_CTRL's writable bits are 1:0 and 34:32 |
| Audit.PerfGlobalOvfCtrlMask | msr-supplemental.h:186-188 | PERF_GLOBAL_OVF_CTRL's writable bits are 1:0, 34:32 and 63:62 |
| Audit.PebsEnableMask | msr-supplemental.h:190-192 | PEBS_ENABLE's writable bits are 3:0 and 35:32 |
| Audit.PebsLdLatMask | msr-supplemental.h:194-196 | PEBS_LD_LAT's writable bits are 15:0 |
| Audit.FixedCountersAlias | msr-supplemental.h:236-237 | writing FIXED_CTR2 by name changes what a read of FIXED_CTR1 returns, because they share 0x30A |

## Left out

- rdmsr and wrmsr on real hardware: modelled as a map from address to value. An address missing from the map stands for a register the processor rejects.
- Policy.WriteRegister: a wrmsr that the processor rejects after the rdmsr of the same read-modify-write succeeded is not modelled. One map stands for both instructions, so a write fails exactly when the read would. ReadWriteFailAlike rests on this abstraction.
- The per-CPU device files and the choice of CPU: not modelled. `Hardware` is the register file of one execution context.
- Locking and concurrency: not modelled. A write is one atomic step.
- The `_USE_ARCH_062D` selection of this table: not modelled. The model is the table that selection enables.
- `SMSR_NOREAD` and `SMSR_READALL`: defined by the header but used by no row, so not modelled. Reads are always unmasked.
- Thread, core and package scope of each register, given in the comments: not modelled. It does not affect the masks.
- The floating-point core-voltage field of PERF_STATUS: not modelled. The register is read-only and its reads are unmasked.
- `SMSR_RO`: the table uses it but the header never defines it. The model takes it to be `SMSR_NOWRITE` (0x0).
- The write pseudo-code: it ends with `wrmsr( maskedval | temp )`, where `temp` is never defined. The model takes `temp` to be `existingval`, the masked current value.
- Registers.Descriptor: its own contract states only that the row carries the requested name. IndexSlot states where that row sits in the table.
- Two comments disagree with their masks.
  - PACKAGE_THERM_STATUS: the comment names the odd bits 1-11; the mask 0x555 covers the even bits 0-10.
  - CLOCK_MODULATION: the comment says bits 4:0 are used; the mask 0x7 covers bits 2:0.
  - The model keeps the masks as written and states each disagreement as a lemma. It does not correct them, because the header does not say which side is intended.
- THERM_INTERRUPT: its comment calls bits 4:0 and 24:8 used, but the mask 0x1FFFF0F leaves out bit 4. PACKAGE_THERM_INTERRUPT leaves out its bit 4 on purpose, and the same reason may apply here. The model keeps the mask and states the gap in ThermInterruptMask.
- FIXED_CTR2: the table gives it address 0x30A, the same as FIXED_CTR1. The header says nothing about this. Intel numbers the fixed counters consecutively from 0x309, so 0x30B is the likely intended value. The model keeps 0x30A as written. Lookup by address resolves 0x30A to FIXED_CTR1, the first match. FIXED_CTR2 is reachable only by name, and a write to it changes FIXED_CTR1 (FixedCounter2OnlyByName, FixedCountersAlias).
