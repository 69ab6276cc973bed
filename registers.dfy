/** The supplemental MSR whitelist for family 06 model 2D (Sandy Bridge Xeon E5):
    one ordered list of descriptors, bracketed by two sentinels. The list is written as the row in
    each slot; a name's enumeration value is its slot. */
module Registers {

  /** The symbolic names the X-macro list generates, in table order. */
  datatype SmsrName =
    | NoSuchSmsr
    | TimeStampCounter | PlatformId
    | Pmc0 | Pmc1 | Pmc2 | Pmc3 | Pmc4 | Pmc5 | Pmc6 | Pmc7
    | Mperf | Aperf
    | PerfEvtSel0 | PerfEvtSel1 | PerfEvtSel2 | PerfEvtSel3
    | PerfEvtSel4 | PerfEvtSel5 | PerfEvtSel6 | PerfEvtSel7
    | PerfStatus | PerfCtl | ClockModulation | ThermInterrupt | ThermStatus
    | MiscEnable | OffcoreRsp0 | OffcoreRsp1 | EnergyPerfBias
    | PackageThermStatus | PackageThermInterrupt
    | FixedCtr0 | FixedCtr1 | FixedCtr2
    | PerfCapabilities | FixedCtrCtrl
    | PerfGlobalStatus | PerfGlobalCtrl | PerfGlobalOvfCtrl
    | PebsEnable | PebsLdLat
    | RaplPowerUnit | PkgPowerLimit | PkgEnergyStatus | PkgPowerInfo
    | Pp0PowerLimit | Pp0EnergyStatus | MsrPkgPerfStatus
    | DramPowerLimit | DramEnergyStatus | DramPerfStatus | DramPowerInfo
    | LastEntry

  /** One descriptor: a register's address and its write mask, authored as two 32-bit halves. */
  datatype Entry = Entry(name: SmsrName, address: nat, lowWriteMask: bv32, highWriteMask: bv32)

  /** No bit of the half is writable. */
  const NoWrite: bv32 := 0x0
  /** Every bit of the half is writable. */
  const WriteAll: bv32 := 0xFFFF_FFFF
  /** The read-only alias the table uses for the RAPL status and information registers.
      The header never defines it; it is taken to be NoWrite. */
  const Ro: bv32 := NoWrite

  predicate IsSentinelName(n: SmsrName) {
    n == NoSuchSmsr || n == LastEntry
  }

  /** The number of slots in the list, both sentinels included. */
  const Size: nat := 54

  /** The list itself, slot by slot in the header's order (lines 203-256 of msr-supplemental.h). */
  function Row(i: nat): (e: Entry)
    requires i < Size
    ensures e.address == 0 <==> (i == 0 || i == Size - 1)
  {
    match i
    case 0  => Entry(NoSuchSmsr,            0x000, 0x0,        0x0)
    case 1  => Entry(TimeStampCounter,      0x010, 0x0,        0x0)
    case 2  => Entry(PlatformId,            0x017, 0x0,        0x0)
    case 3  => Entry(Pmc0,                  0x0C1, 0xFFFFFFFF, 0xFFFFFFFF)
    case 4  => Entry(Pmc1,                  0x0C2, 0xFFFFFFFF, 0xFFFFFFFF)
    case 5  => Entry(Pmc2,                  0x0C3, 0xFFFFFFFF, 0xFFFFFFFF)
    case 6  => Entry(Pmc3,                  0x0C4, 0xFFFFFFFF, 0xFFFFFFFF)
    case 7  => Entry(Pmc4,                  0x0C5, 0xFFFFFFFF, 0xFFFFFFFF)
    case 8  => Entry(Pmc5,                  0x0C6, 0xFFFFFFFF, 0xFFFFFFFF)
    case 9  => Entry(Pmc6,                  0x0C7, 0xFFFFFFFF, 0xFFFFFFFF)
    case 10 => Entry(Pmc7,                  0x0C8, 0xFFFFFFFF, 0xFFFFFFFF)
    case 11 => Entry(Mperf,                 0x0E7, 0x0,        0x0)
    case 12 => Entry(Aperf,                 0x0E8, 0x0,        0x0)
    case 13 => Entry(PerfEvtSel0,           0x186, 0xFFFFFFFF, 0x0)
    case 14 => Entry(PerfEvtSel1,           0x187, 0xFFFFFFFF, 0x0)
    case 15 => Entry(PerfEvtSel2,           0x188, 0xFFFFFFFF, 0x0)
    case 16 => Entry(PerfEvtSel3,           0x189, 0xFFFFFFFF, 0x0)
    case 17 => Entry(PerfEvtSel4,           0x18A, 0xFFFFFFFF, 0x0)
    case 18 => Entry(PerfEvtSel5,           0x18B, 0xFFFFFFFF, 0x0)
    case 19 => Entry(PerfEvtSel6,           0x18C, 0xFFFFFFFF, 0x0)
    case 20 => Entry(PerfEvtSel7,           0x18D, 0xFFFFFFFF, 0x0)
    case 21 => Entry(PerfStatus,            0x198, 0x0,        0x0)
    case 22 => Entry(PerfCtl,               0x199, 0x0,        0x00000001)
    case 23 => Entry(ClockModulation,       0x19A, 0x00000007, 0x0)
    case 24 => Entry(ThermInterrupt,        0x19B, 0x01FFFF0F, 0x0)
    case 25 => Entry(ThermStatus,           0x19C, 0x00000AAA, 0x0)
    case 26 => Entry(MiscEnable,            0x1A0, 0x00010000, 0x00000040)
    case 27 => Entry(OffcoreRsp0,           0x1A6, 0xFFFF8FFF, 0x0000003F)
    case 28 => Entry(OffcoreRsp1,           0x1A7, 0xFFFF8FFF, 0x0000003F)
    case 29 => Entry(EnergyPerfBias,        0x1B0, 0xF,        0x0)
    case 30 => Entry(PackageThermStatus,    0x1B1, 0x00000555, 0x0)
    case 31 => Entry(PackageThermInterrupt, 0x1B2, 0x01FFFF07, 0x0)
    case 32 => Entry(FixedCtr0,             0x309, 0xFFFFFFFF, 0xFFFFFFFF)
    case 33 => Entry(FixedCtr1,             0x30A, 0xFFFFFFFF, 0xFFFFFFFF)
    case 34 => Entry(FixedCtr2,             0x30A, 0xFFFFFFFF, 0xFFFFFFFF)
    case 35 => Entry(PerfCapabilities,      0x345, 0x0,        0x0)
    case 36 => Entry(FixedCtrCtrl,          0x38D, 0x00000BBB, 0x0)
    case 37 => Entry(PerfGlobalStatus,      0x38E, 0x00000003, 0xC0000007)
    case 38 => Entry(PerfGlobalCtrl,        0x38F, 0x00000003, 0x00000007)
    case 39 => Entry(PerfGlobalOvfCtrl,     0x390, 0x00000003, 0xC0000007)
    case 40 => Entry(PebsEnable,            0x3F1, 0x0000000F, 0x0000000F)
    case 41 => Entry(PebsLdLat,             0x3F6, 0x0000FFFF, 0x0)
    case 42 => Entry(RaplPowerUnit,         0x606, Ro,         Ro)
    case 43 => Entry(PkgPowerLimit,         0x610, WriteAll,   WriteAll)
    case 44 => Entry(PkgEnergyStatus,       0x611, Ro,         Ro)
    case 45 => Entry(PkgPowerInfo,          0x612, Ro,         Ro)
    case 46 => Entry(Pp0PowerLimit,         0x638, WriteAll,   WriteAll)
    case 47 => Entry(Pp0EnergyStatus,       0x639, Ro,         Ro)
    case 48 => Entry(MsrPkgPerfStatus,      0x613, Ro,         Ro)
    case 49 => Entry(DramPowerLimit,        0x618, WriteAll,   WriteAll)
    case 50 => Entry(DramEnergyStatus,      0x619, Ro,         Ro)
    case 51 => Entry(DramPerfStatus,        0x61B, Ro,         Ro)
    case 52 => Entry(DramPowerInfo,         0x61C, Ro,         Ro)
    case 53 => Entry(LastEntry,             0x000, 0x0,        0x0)
  }

  /** The value the generated enumeration gives a name: its slot in the list. */
  function Index(n: SmsrName): (i: nat)
    ensures i < Size
    ensures IsSentinelName(n) <==> (i == 0 || i == Size - 1)
  {
    match n
    case NoSuchSmsr            => 0
    case TimeStampCounter      => 1
    case PlatformId            => 2
    case Pmc0                  => 3
    case Pmc1                  => 4
    case Pmc2                  => 5
    case Pmc3                  => 6
    case Pmc4                  => 7
    case Pmc5                  => 8
    case Pmc6                  => 9
    case Pmc7                  => 10
    case Mperf                 => 11
    case Aperf                 => 12
    case PerfEvtSel0           => 13
    case PerfEvtSel1           => 14
    case PerfEvtSel2           => 15
    case PerfEvtSel3           => 16
    case PerfEvtSel4           => 17
    case PerfEvtSel5           => 18
    case PerfEvtSel6           => 19
    case PerfEvtSel7           => 20
    case PerfStatus            => 21
    case PerfCtl               => 22
    case ClockModulation       => 23
    case ThermInterrupt        => 24
    case ThermStatus           => 25
    case MiscEnable            => 26
    case OffcoreRsp0           => 27
    case OffcoreRsp1           => 28
    case EnergyPerfBias        => 29
    case PackageThermStatus    => 30
    case PackageThermInterrupt => 31
    case FixedCtr0             => 32
    case FixedCtr1             => 33
    case FixedCtr2             => 34
    case PerfCapabilities      => 35
    case FixedCtrCtrl          => 36
    case PerfGlobalStatus      => 37
    case PerfGlobalCtrl        => 38
    case PerfGlobalOvfCtrl     => 39
    case PebsEnable            => 40
    case PebsLdLat             => 41
    case RaplPowerUnit         => 42
    case PkgPowerLimit         => 43
    case PkgEnergyStatus       => 44
    case PkgPowerInfo          => 45
    case Pp0PowerLimit         => 46
    case Pp0EnergyStatus       => 47
    case MsrPkgPerfStatus      => 48
    case DramPowerLimit        => 49
    case DramEnergyStatus      => 50
    case DramPerfStatus        => 51
    case DramPowerInfo         => 52
    case LastEntry             => 53
  }

  // The correspondences below are checked a few names at a time, which keeps each proof small.

  lemma IndexSlotGroup0(n: SmsrName)
    requires n == NoSuchSmsr || n == TimeStampCounter || n == PlatformId || n == Pmc0 || n == Pmc1
      || n == Pmc2 || n == Pmc3
    ensures Index(n) < Size && Row(Index(n)).name == n
  {
    match n
    case NoSuchSmsr =>
    case TimeStampCounter =>
    case PlatformId =>
    case Pmc0 =>
    case Pmc1 =>
    case Pmc2 =>
    case Pmc3 =>
  }

  lemma IndexSlotGroup1(n: SmsrName)
    requires n == Pmc4 || n == Pmc5 || n == Pmc6 || n == Pmc7 || n == Mperf || n == Aperf
    ensures Index(n) < Size && Row(Index(n)).name == n
  {
    match n
    case Pmc4 =>
    case Pmc5 =>
    case Pmc6 =>
    case Pmc7 =>
    case Mperf =>
    case Aperf =>
  }

  lemma IndexSlotGroup2(n: SmsrName)
    requires n == PerfEvtSel0 || n == PerfEvtSel1 || n == PerfEvtSel2 || n == PerfEvtSel3
      || n == PerfEvtSel4 || n == PerfEvtSel5
    ensures Index(n) < Size && Row(Index(n)).name == n
  {
    match n
    case PerfEvtSel0 =>
    case PerfEvtSel1 =>
    case PerfEvtSel2 =>
    case PerfEvtSel3 =>
    case PerfEvtSel4 =>
    case PerfEvtSel5 =>
  }

  lemma IndexSlotGroup3(n: SmsrName)
    requires n == PerfEvtSel6 || n == PerfEvtSel7 || n == PerfStatus || n == PerfCtl
      || n == ClockModulation
    ensures Index(n) < Size && Row(Index(n)).name == n
  {
    match n
    case PerfEvtSel6 =>
    case PerfEvtSel7 =>
    case PerfStatus =>
    case PerfCtl =>
    case ClockModulation =>
  }

  lemma IndexSlotGroup4(n: SmsrName)
    requires n == ThermInterrupt || n == ThermStatus || n == MiscEnable || n == OffcoreRsp0
      || n == OffcoreRsp1
    ensures Index(n) < Size && Row(Index(n)).name == n
  {
    match n
    case ThermInterrupt =>
    case ThermStatus =>
    case MiscEnable =>
    case OffcoreRsp0 =>
    case OffcoreRsp1 =>
  }

  lemma IndexSlotGroup5(n: SmsrName)
    requires n == EnergyPerfBias || n == PackageThermStatus || n == PackageThermInterrupt
      || n == FixedCtr0 || n == FixedCtr1
    ensures Index(n) < Size && Row(Index(n)).name == n
  {
    match n
    case EnergyPerfBias =>
    case PackageThermStatus =>
    case PackageThermInterrupt =>
    case FixedCtr0 =>
    case FixedCtr1 =>
  }

  lemma IndexSlotGroup6(n: SmsrName)
    requires n == FixedCtr2 || n == PerfCapabilities || n == FixedCtrCtrl || n == PerfGlobalStatus
      || n == PerfGlobalCtrl
    ensures Index(n) < Size && Row(Index(n)).name == n
  {
    match n
    case FixedCtr2 =>
    case PerfCapabilities =>
    case FixedCtrCtrl =>
    case PerfGlobalStatus =>
    case PerfGlobalCtrl =>
  }

  lemma IndexSlotGroup7(n: SmsrName)
    requires n == PerfGlobalOvfCtrl || n == PebsEnable || n == PebsLdLat || n == RaplPowerUnit
      || n == PkgPowerLimit
    ensures Index(n) < Size && Row(Index(n)).name == n
  {
    match n
    case PerfGlobalOvfCtrl =>
    case PebsEnable =>
    case PebsLdLat =>
    case RaplPowerUnit =>
    case PkgPowerLimit =>
  }

  lemma IndexSlotGroup8(n: SmsrName)
    requires n == PkgEnergyStatus || n == PkgPowerInfo || n == Pp0PowerLimit || n == Pp0EnergyStatus
      || n == MsrPkgPerfStatus
    ensures Index(n) < Size && Row(Index(n)).name == n
  {
    match n
    case PkgEnergyStatus =>
    case PkgPowerInfo =>
    case Pp0PowerLimit =>
    case Pp0EnergyStatus =>
    case MsrPkgPerfStatus =>
  }

  lemma IndexSlotGroup9(n: SmsrName)
    requires n == DramPowerLimit || n == DramEnergyStatus || n == DramPerfStatus
      || n == DramPowerInfo || n == LastEntry
    ensures Index(n) < Size && Row(Index(n)).name == n
  {
    match n
    case DramPowerLimit =>
    case DramEnergyStatus =>
    case DramPerfStatus =>
    case DramPowerInfo =>
    case LastEntry =>
  }

  /** Every name's enumeration value is a slot of the list, and that slot holds the name's own row. */
  lemma IndexSlot(n: SmsrName)
    ensures Index(n) < Size && Row(Index(n)).name == n
  {
    match n
    case NoSuchSmsr | TimeStampCounter | PlatformId | Pmc0 | Pmc1 | Pmc2 | Pmc3 =>
      IndexSlotGroup0(n);
    case Pmc4 | Pmc5 | Pmc6 | Pmc7 | Mperf | Aperf =>
      IndexSlotGroup1(n);
    case PerfEvtSel0 | PerfEvtSel1 | PerfEvtSel2 | PerfEvtSel3 | PerfEvtSel4 | PerfEvtSel5 =>
      IndexSlotGroup2(n);
    case PerfEvtSel6 | PerfEvtSel7 | PerfStatus | PerfCtl | ClockModulation =>
      IndexSlotGroup3(n);
    case ThermInterrupt | ThermStatus | MiscEnable | OffcoreRsp0 | OffcoreRsp1 =>
      IndexSlotGroup4(n);
    case EnergyPerfBias | PackageThermStatus | PackageThermInterrupt | FixedCtr0 | FixedCtr1 =>
      IndexSlotGroup5(n);
    case FixedCtr2 | PerfCapabilities | FixedCtrCtrl | PerfGlobalStatus | PerfGlobalCtrl =>
      IndexSlotGroup6(n);
    case PerfGlobalOvfCtrl | PebsEnable | PebsLdLat | RaplPowerUnit | PkgPowerLimit =>
      IndexSlotGroup7(n);
    case PkgEnergyStatus | PkgPowerInfo | Pp0PowerLimit | Pp0EnergyStatus | MsrPkgPerfStatus =>
      IndexSlotGroup8(n);
    case DramPowerLimit | DramEnergyStatus | DramPerfStatus | DramPowerInfo | LastEntry =>
      IndexSlotGroup9(n);
  }

  /** Only the sentinel names take the first and the last slot. */
  lemma SentinelSlots(n: SmsrName)
    ensures IsSentinelName(n) <==> (Index(n) == 0 || Index(n) == Size - 1)
  {
  }

  /** The two sentinels sit first and last, with address 0 and nothing writable. */
  lemma Sentinels()
    ensures Row(0) == Entry(NoSuchSmsr, 0x000, 0x0, 0x0)
    ensures Row(Size - 1) == Entry(LastEntry, 0x000, 0x0, 0x0)
  {
  }

  /** The row a name selects: the one in the slot of its enumeration value. */
  function Descriptor(n: SmsrName): (e: Entry)
    ensures e.name == n
  {
    IndexSlot(n);
    Row(Index(n))
  }

  /** The two fixed counters 1 and 2 sit in consecutive slots, both at address 0x30A. */
  lemma FixedCounterSlots()
    ensures Descriptor(FixedCtr1) == Row(33) && Descriptor(FixedCtr2) == Row(34)
    ensures Row(33).address == 0x30A && Row(34).address == 0x30A
  {
  }

  /** For each address a real row uses, the first name listed with it; NoSuchSmsr otherwise.
      The addresses are searched as a balanced decision tree. */
  function Owner(a: nat): SmsrName {
    if a < 0x1A0 then
      if a < 0x186 then
        if a < 0x0C5 then
          if a < 0x0C2 then
            if a < 0x017 then
              if a == 0x010 then TimeStampCounter
              else NoSuchSmsr
            else
              if a == 0x017 then PlatformId
              else if a == 0x0C1 then Pmc0
              else NoSuchSmsr
          else
            if a < 0x0C3 then
              if a == 0x0C2 then Pmc1
              else NoSuchSmsr
            else
              if a == 0x0C3 then Pmc2
              else if a == 0x0C4 then Pmc3
              else NoSuchSmsr
        else
          if a < 0x0C8 then
            if a < 0x0C6 then
              if a == 0x0C5 then Pmc4
              else NoSuchSmsr
            else
              if a == 0x0C6 then Pmc5
              else if a == 0x0C7 then Pmc6
              else NoSuchSmsr
          else
            if a < 0x0E7 then
              if a == 0x0C8 then Pmc7
              else NoSuchSmsr
            else
              if a == 0x0E7 then Mperf
              else if a == 0x0E8 then Aperf
              else NoSuchSmsr
      else
        if a < 0x18C then
          if a < 0x189 then
            if a < 0x187 then
              if a == 0x186 then PerfEvtSel0
              else NoSuchSmsr
            else
              if a == 0x187 then PerfEvtSel1
              else if a == 0x188 then PerfEvtSel2
              else NoSuchSmsr
          else
            if a < 0x18A then
              if a == 0x189 then PerfEvtSel3
              else NoSuchSmsr
            else
              if a == 0x18A then PerfEvtSel4
              else if a == 0x18B then PerfEvtSel5
              else NoSuchSmsr
        else
          if a < 0x199 then
            if a < 0x18D then
              if a == 0x18C then PerfEvtSel6
              else NoSuchSmsr
            else
              if a == 0x18D then PerfEvtSel7
              else if a == 0x198 then PerfStatus
              else NoSuchSmsr
          else
            if a < 0x19B then
              if a == 0x199 then PerfCtl
              else if a == 0x19A then ClockModulation
              else NoSuchSmsr
            else
              if a == 0x19B then ThermInterrupt
              else if a == 0x19C then ThermStatus
              else NoSuchSmsr
    else
      if a < 0x3F1 then
        if a < 0x309 then
          if a < 0x1B0 then
            if a < 0x1A6 then
              if a == 0x1A0 then MiscEnable
              else NoSuchSmsr
            else
              if a == 0x1A6 then OffcoreRsp0
              else if a == 0x1A7 then OffcoreRsp1
              else NoSuchSmsr
          else
            if a < 0x1B1 then
              if a == 0x1B0 then EnergyPerfBias
              else NoSuchSmsr
            else
              if a == 0x1B1 then PackageThermStatus
              else if a == 0x1B2 then PackageThermInterrupt
              else NoSuchSmsr
        else
          if a < 0x38D then
            if a < 0x30A then
              if a == 0x309 then FixedCtr0
              else NoSuchSmsr
            else
              if a == 0x30A then FixedCtr1
              else if a == 0x345 then PerfCapabilities
              else NoSuchSmsr
          else
            if a < 0x38F then
              if a == 0x38D then FixedCtrCtrl
              else if a == 0x38E then PerfGlobalStatus
              else NoSuchSmsr
            else
              if a == 0x38F then PerfGlobalCtrl
              else if a == 0x390 then PerfGlobalOvfCtrl
              else NoSuchSmsr
      else
        if a < 0x613 then
          if a < 0x610 then
            if a < 0x3F6 then
              if a == 0x3F1 then PebsEnable
              else NoSuchSmsr
            else
              if a == 0x3F6 then PebsLdLat
              else if a == 0x606 then RaplPowerUnit
              else NoSuchSmsr
          else
            if a < 0x611 then
              if a == 0x610 then PkgPowerLimit
              else NoSuchSmsr
            else
              if a == 0x611 then PkgEnergyStatus
              else if a == 0x612 then PkgPowerInfo
              else NoSuchSmsr
        else
          if a < 0x61B then
            if a < 0x618 then
              if a == 0x613 then MsrPkgPerfStatus
              else NoSuchSmsr
            else
              if a == 0x618 then DramPowerLimit
              else if a == 0x619 then DramEnergyStatus
              else NoSuchSmsr
          else
            if a < 0x638 then
              if a == 0x61B then DramPerfStatus
              else if a == 0x61C then DramPowerInfo
              else NoSuchSmsr
            else
              if a == 0x638 then Pp0PowerLimit
              else if a == 0x639 then Pp0EnergyStatus
              else NoSuchSmsr
  }

  /** The name that comes first at a real register's address: the register itself, except for
      FIXED_CTR2, which is listed after FIXED_CTR1 at the same address. */
  function Canonical(n: SmsrName): SmsrName {
    if n == FixedCtr2 then FixedCtr1 else n
  }

  // SlotFacts is proved a few slots at a time: with all 54 rows of Row and the Owner tree in one
  // proof the solver runs out of resource, while each range below is cheap.

  lemma SlotFactsRange0(i: nat)
    requires 0 <= i < 4
    ensures Index(Row(i).name) == i
    ensures 1 <= i < Size - 1 ==>
      && !IsSentinelName(Row(i).name) && Row(i).address != 0
      && Owner(Row(i).address) == Canonical(Row(i).name)
  {
    if i == 0 {
    } else if i == 1 {
    } else if i == 2 {
    } else {
    }
  }

  lemma SlotFactsRange1(i: nat)
    requires 4 <= i < 8
    ensures Index(Row(i).name) == i
    ensures 1 <= i < Size - 1 ==>
      && !IsSentinelName(Row(i).name) && Row(i).address != 0
      && Owner(Row(i).address) == Canonical(Row(i).name)
  {
    if i == 4 {
    } else if i == 5 {
    } else if i == 6 {
    } else {
    }
  }

  lemma SlotFactsRange2(i: nat)
    requires 8 <= i < 12
    ensures Index(Row(i).name) == i
    ensures 1 <= i < Size - 1 ==>
      && !IsSentinelName(Row(i).name) && Row(i).address != 0
      && Owner(Row(i).address) == Canonical(Row(i).name)
  {
    if i == 8 {
    } else if i == 9 {
    } else if i == 10 {
    } else {
    }
  }

  lemma SlotFactsRange3(i: nat)
    requires 12 <= i < 16
    ensures Index(Row(i).name) == i
    ensures 1 <= i < Size - 1 ==>
      && !IsSentinelName(Row(i).name) && Row(i).address != 0
      && Owner(Row(i).address) == Canonical(Row(i).name)
  {
    if i == 12 {
    } else if i == 13 {
    } else if i == 14 {
    } else {
    }
  }

  lemma SlotFactsRange4(i: nat)
    requires 16 <= i < 20
    ensures Index(Row(i).name) == i
    ensures 1 <= i < Size - 1 ==>
      && !IsSentinelName(Row(i).name) && Row(i).address != 0
      && Owner(Row(i).address) == Canonical(Row(i).name)
  {
    if i == 16 {
    } else if i == 17 {
    } else if i == 18 {
    } else {
    }
  }

  lemma SlotFactsRange5(i: nat)
    requires 20 <= i < 24
    ensures Index(Row(i).name) == i
    ensures 1 <= i < Size - 1 ==>
      && !IsSentinelName(Row(i).name) && Row(i).address != 0
      && Owner(Row(i).address) == Canonical(Row(i).name)
  {
    if i == 20 {
    } else if i == 21 {
    } else if i == 22 {
    } else {
    }
  }

  lemma SlotFactsRange6(i: nat)
    requires 24 <= i < 28
    ensures Index(Row(i).name) == i
    ensures 1 <= i < Size - 1 ==>
      && !IsSentinelName(Row(i).name) && Row(i).address != 0
      && Owner(Row(i).address) == Canonical(Row(i).name)
  {
    if i == 24 {
    } else if i == 25 {
    } else if i == 26 {
    } else {
    }
  }

  lemma SlotFactsRange7(i: nat)
    requires 28 <= i < 32
    ensures Index(Row(i).name) == i
    ensures 1 <= i < Size - 1 ==>
      && !IsSentinelName(Row(i).name) && Row(i).address != 0
      && Owner(Row(i).address) == Canonical(Row(i).name)
  {
    if i == 28 {
    } else if i == 29 {
    } else if i == 30 {
    } else {
    }
  }

  lemma SlotFactsRange8(i: nat)
    requires 32 <= i < 36
    ensures Index(Row(i).name) == i
    ensures 1 <= i < Size - 1 ==>
      && !IsSentinelName(Row(i).name) && Row(i).address != 0
      && Owner(Row(i).address) == Canonical(Row(i).name)
  {
    if i == 32 {
    } else if i == 33 {
    } else if i == 34 {
    } else {
    }
  }

  lemma SlotFactsRange9(i: nat)
    requires 36 <= i < 40
    ensures Index(Row(i).name) == i
    ensures 1 <= i < Size - 1 ==>
      && !IsSentinelName(Row(i).name) && Row(i).address != 0
      && Owner(Row(i).address) == Canonical(Row(i).name)
  {
    if i == 36 {
    } else if i == 37 {
    } else if i == 38 {
    } else {
    }
  }

  lemma SlotFactsRange10(i: nat)
    requires 40 <= i < 43
    ensures Index(Row(i).name) == i
    ensures 1 <= i < Size - 1 ==>
      && !IsSentinelName(Row(i).name) && Row(i).address != 0
      && Owner(Row(i).address) == Canonical(Row(i).name)
  {
    if i == 40 {
    } else if i == 41 {
    } else {
    }
  }

  lemma SlotFactsRange11(i: nat)
    requires 43 <= i < 46
    ensures Index(Row(i).name) == i
    ensures 1 <= i < Size - 1 ==>
      && !IsSentinelName(Row(i).name) && Row(i).address != 0
      && Owner(Row(i).address) == Canonical(Row(i).name)
  {
    if i == 43 {
    } else if i == 44 {
    } else {
    }
  }

  lemma SlotFactsRange12(i: nat)
    requires 46 <= i < 49
    ensures Index(Row(i).name) == i
    ensures 1 <= i < Size - 1 ==>
      && !IsSentinelName(Row(i).name) && Row(i).address != 0
      && Owner(Row(i).address) == Canonical(Row(i).name)
  {
    if i == 46 {
    } else if i == 47 {
    } else {
    }
  }

  lemma SlotFactsRange13(i: nat)
    requires 49 <= i < 52
    ensures Index(Row(i).name) == i
    ensures 1 <= i < Size - 1 ==>
      && !IsSentinelName(Row(i).name) && Row(i).address != 0
      && Owner(Row(i).address) == Canonical(Row(i).name)
  {
    if i == 49 {
    } else if i == 50 {
    } else {
    }
  }

  lemma SlotFactsRange14(i: nat)
    requires 52 <= i < 54
    ensures Index(Row(i).name) == i
    ensures 1 <= i < Size - 1 ==>
      && !IsSentinelName(Row(i).name) && Row(i).address != 0
      && Owner(Row(i).address) == Canonical(Row(i).name)
  {
    if i == 52 {
    } else {
    }
  }

  /** What every slot holds: the name whose enumeration value is that slot, and between the
      sentinels a real register at a nonzero address that leads back to it. */
  lemma SlotFacts(i: nat)
    requires i < Size
    ensures Index(Row(i).name) == i
    ensures 1 <= i < Size - 1 ==>
      && !IsSentinelName(Row(i).name) && Row(i).address != 0
      && Owner(Row(i).address) == Canonical(Row(i).name)
  {
    if i < 4 {
      SlotFactsRange0(i);
    } else if i < 8 {
      SlotFactsRange1(i);
    } else if i < 12 {
      SlotFactsRange2(i);
    } else if i < 16 {
      SlotFactsRange3(i);
    } else if i < 20 {
      SlotFactsRange4(i);
    } else if i < 24 {
      SlotFactsRange5(i);
    } else if i < 28 {
      SlotFactsRange6(i);
    } else if i < 32 {
      SlotFactsRange7(i);
    } else if i < 36 {
      SlotFactsRange8(i);
    } else if i < 40 {
      SlotFactsRange9(i);
    } else if i < 43 {
      SlotFactsRange10(i);
    } else if i < 46 {
      SlotFactsRange11(i);
    } else if i < 49 {
      SlotFactsRange12(i);
    } else if i < 52 {
      SlotFactsRange13(i);
    } else {
      SlotFactsRange14(i);
    }
  }

  /** No real register uses the sentinels' address 0. */
  lemma RealAddressNonZero(n: SmsrName)
    requires !IsSentinelName(n)
    ensures Descriptor(n).address != 0
  {
    IndexSlot(n);
    SentinelSlots(n);
    SlotFacts(Index(n));
  }

  /** Two real registers share an address only when they are FIXED_CTR1 and FIXED_CTR2. */
  lemma SameAddress(n: SmsrName, m: SmsrName)
    requires !IsSentinelName(n) && !IsSentinelName(m)
    requires Descriptor(n).address == Descriptor(m).address
    ensures n == m || (n == FixedCtr1 && m == FixedCtr2) || (n == FixedCtr2 && m == FixedCtr1)
  {
    IndexSlot(n);
    IndexSlot(m);
    SentinelSlots(n);
    SentinelSlots(m);
    SlotFacts(Index(n));
    SlotFacts(Index(m));
  }

  /** The row in a slot is the descriptor of the name it holds. */
  lemma RowIsDescriptor(i: nat)
    requires i < Size
    ensures Row(i) == Descriptor(Row(i).name)
  {
    SlotFacts(i);
  }

  /** Slot by slot: no real slot has address 0, and real slots have pairwise distinct addresses
      with one exception, FIXED_CTR1 and FIXED_CTR2 in consecutive slots at 0x30A. */
  lemma AddressesDistinct()
    ensures forall i | 1 <= i < Size - 1 :: Row(i).address != 0
    ensures forall i, j | 1 <= i < j < Size - 1 && Row(i).address == Row(j).address ::
      Row(i).name == FixedCtr1 && Row(j).name == FixedCtr2
  {
    forall i | 1 <= i < Size - 1
      ensures Row(i).address != 0
    {
      SlotFacts(i);
    }
    forall i, j | 1 <= i < j < Size - 1 && Row(i).address == Row(j).address
      ensures Row(i).name == FixedCtr1 && Row(j).name == FixedCtr2
    {
      SlotFacts(i);
      SlotFacts(j);
    }
  }

  /** The list as a sequence of rows, slot by slot. */
  function Table(): (t: seq<Entry>)
    ensures |t| == Size
    ensures forall i | 0 <= i < Size :: t[i] == Row(i)
  {
    seq(Size, i requires 0 <= i < Size => Row(i))
  }
}
