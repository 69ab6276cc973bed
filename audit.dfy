/** What the Sandy Bridge Xeon E5 whitelist lets a caller do to each register: which registers
    are read-only, which take any value, and which bits of the partly writable ones can change. */
module Audit {
  import opened Bits
  import opened Registers
  import opened Lookup
  import opened Policy

  /** Registers whose descriptor allows no bit to be written. */
  predicate IsReadOnly(n: SmsrName) {
    n == TimeStampCounter || n == PlatformId || n == Mperf || n == Aperf || n == PerfStatus
     || n == PerfCapabilities || n == RaplPowerUnit || n == PkgEnergyStatus || n == PkgPowerInfo
     || n == Pp0EnergyStatus || n == MsrPkgPerfStatus || n == DramEnergyStatus
     || n == DramPerfStatus || n == DramPowerInfo
  }

  /** Registers whose descriptor allows every bit to be written. */
  predicate IsFullyWritable(n: SmsrName) {
    n == Pmc0 || n == Pmc1 || n == Pmc2 || n == Pmc3 || n == Pmc4 || n == Pmc5 || n == Pmc6
     || n == Pmc7 || n == FixedCtr0 || n == FixedCtr1 || n == FixedCtr2 || n == PkgPowerLimit
     || n == Pp0PowerLimit || n == DramPowerLimit
  }

  /** The performance event select registers: the low half is writable, the reserved high half is not. */
  predicate IsEventSelect(n: SmsrName) {
    n == PerfEvtSel0 || n == PerfEvtSel1 || n == PerfEvtSel2 || n == PerfEvtSel3 || n == PerfEvtSel4
     || n == PerfEvtSel5 || n == PerfEvtSel6 || n == PerfEvtSel7
  }

  /** The 64-bit write mask the whitelist attaches to a register. */
  function MaskOf(n: SmsrName): bv64 {
    WriteMask(Descriptor(n))
  }

  /** A descriptor belongs to one of the three groups above exactly when its masks say so. */
  predicate Classified(e: Entry) {
    !IsSentinelName(e.name) ==>
      && ((e.lowWriteMask == NoWrite && e.highWriteMask == NoWrite) <==> IsReadOnly(e.name))
      && ((e.lowWriteMask == WriteAll && e.highWriteMask == WriteAll) <==> IsFullyWritable(e.name))
      && ((e.lowWriteMask == WriteAll && e.highWriteMask == NoWrite) <==> IsEventSelect(e.name))
  }

  // The table is checked a few slots at a time: one proof over all 54 rows of Row runs the solver
  // out of resource, while each range below is cheap.

  lemma ClassifiedRange0(i: nat)
    requires 0 <= i < 4
    ensures Classified(Row(i))
  {
    if i == 0 {
    } else if i == 1 {
    } else if i == 2 {
    } else {
    }
  }

  lemma ClassifiedRange1(i: nat)
    requires 4 <= i < 8
    ensures Classified(Row(i))
  {
    if i == 4 {
    } else if i == 5 {
    } else if i == 6 {
    } else {
    }
  }

  lemma ClassifiedRange2(i: nat)
    requires 8 <= i < 12
    ensures Classified(Row(i))
  {
    if i == 8 {
    } else if i == 9 {
    } else if i == 10 {
    } else {
    }
  }

  lemma ClassifiedRange3(i: nat)
    requires 12 <= i < 16
    ensures Classified(Row(i))
  {
    if i == 12 {
    } else if i == 13 {
    } else if i == 14 {
    } else {
    }
  }

  lemma ClassifiedRange4(i: nat)
    requires 16 <= i < 20
    ensures Classified(Row(i))
  {
    if i == 16 {
    } else if i == 17 {
    } else if i == 18 {
    } else {
    }
  }

  lemma ClassifiedRange5(i: nat)
    requires 20 <= i < 24
    ensures Classified(Row(i))
  {
    if i == 20 {
    } else if i == 21 {
    } else if i == 22 {
    } else {
    }
  }

  lemma ClassifiedRange6(i: nat)
    requires 24 <= i < 28
    ensures Classified(Row(i))
  {
    if i == 24 {
    } else if i == 25 {
    } else if i == 26 {
    } else {
    }
  }

  lemma ClassifiedRange7(i: nat)
    requires 28 <= i < 32
    ensures Classified(Row(i))
  {
    if i == 28 {
    } else if i == 29 {
    } else if i == 30 {
    } else {
    }
  }

  lemma ClassifiedRange8(i: nat)
    requires 32 <= i < 36
    ensures Classified(Row(i))
  {
    if i == 32 {
    } else if i == 33 {
    } else if i == 34 {
    } else {
    }
  }

  lemma ClassifiedRange9(i: nat)
    requires 36 <= i < 40
    ensures Classified(Row(i))
  {
    if i == 36 {
    } else if i == 37 {
    } else if i == 38 {
    } else {
    }
  }

  lemma ClassifiedRange10(i: nat)
    requires 40 <= i < 44
    ensures Classified(Row(i))
  {
    if i == 40 {
    } else if i == 41 {
    } else if i == 42 {
    } else {
    }
  }

  lemma ClassifiedRange11(i: nat)
    requires 44 <= i < 48
    ensures Classified(Row(i))
  {
    if i == 44 {
    } else if i == 45 {
    } else if i == 46 {
    } else {
    }
  }

  lemma ClassifiedRange12(i: nat)
    requires 48 <= i < 52
    ensures Classified(Row(i))
  {
    if i == 48 {
    } else if i == 49 {
    } else if i == 50 {
    } else {
    }
  }

  lemma ClassifiedRange13(i: nat)
    requires 52 <= i < 54
    ensures Classified(Row(i))
  {
    if i == 52 {
    } else {
    }
  }

  /** Every slot of the table is classified. */
  lemma SlotClassified(i: nat)
    requires i < Size
    ensures Classified(Row(i))
  {
    if i < 4 {
      ClassifiedRange0(i);
    } else if i < 8 {
      ClassifiedRange1(i);
    } else if i < 12 {
      ClassifiedRange2(i);
    } else if i < 16 {
      ClassifiedRange3(i);
    } else if i < 20 {
      ClassifiedRange4(i);
    } else if i < 24 {
      ClassifiedRange5(i);
    } else if i < 28 {
      ClassifiedRange6(i);
    } else if i < 32 {
      ClassifiedRange7(i);
    } else if i < 36 {
      ClassifiedRange8(i);
    } else if i < 40 {
      ClassifiedRange9(i);
    } else if i < 44 {
      ClassifiedRange10(i);
    } else if i < 48 {
      ClassifiedRange11(i);
    } else if i < 52 {
      ClassifiedRange12(i);
    } else {
      ClassifiedRange13(i);
    }
  }

  /** Reads the classification of one register off the table. */
  lemma DescriptorClassified(n: SmsrName)
    ensures Classified(Descriptor(n))
  {
    IndexSlot(n);
    SlotClassified(Index(n));
  }

  /** The registers a caller cannot change at all are exactly those of ReadOnly. */
  lemma ReadOnlyClassified(n: SmsrName)
    requires !IsSentinelName(n)
    ensures MaskOf(n) == 0 <==> IsReadOnly(n)
  {
    DescriptorClassified(n);
    JoinSplit(MaskOf(n));
  }

  /** The registers a caller can overwrite entirely are exactly those of FullyWritable. */
  lemma FullyWritableClassified(n: SmsrName)
    requires !IsSentinelName(n)
    ensures MaskOf(n) == 0xFFFF_FFFF_FFFF_FFFF <==> IsFullyWritable(n)
  {
    DescriptorClassified(n);
    JoinSplit(MaskOf(n));
  }

  /** The registers writable in the low half only are exactly the event selects. */
  lemma EventSelectsClassified(n: SmsrName)
    requires !IsSentinelName(n)
    ensures MaskOf(n) == 0xFFFF_FFFF <==> IsEventSelect(n)
  {
    DescriptorClassified(n);
    JoinSplit(MaskOf(n));
  }

  /** A read or write by name reaches the register's own descriptor. */
  lemma NamedAccess(hw: Hardware, n: SmsrName, v: bv64)
    requires !IsSentinelName(n)
    ensures Write(hw, Named(n), v) == WriteRegister(hw, Some(Descriptor(n)), v)
    ensures Read(hw, Named(n)) == ReadRegister(hw, Some(Descriptor(n)))
  {
  }

  /** A write to a read-only register commits the value already there and changes nothing. */
  lemma ReadOnlyWriteIsNoOp(hw: Hardware, n: SmsrName, v: bv64)
    requires IsReadOnly(n)
    requires Descriptor(n).address in hw
    ensures Write(hw, Named(n), v) == Ok(Commit(hw, hw[Descriptor(n).address]))
  {
    var a := Descriptor(n).address;
    NamedAccess(hw, n, v);
    ReadOnlyClassified(n);
    MergeExtremes(hw[a], v);
    assert hw[a := hw[a]] == hw;
  }

  /** A write to a fully writable register stores the request, and a read then returns it. */
  lemma FullyWritableStoresRequest(hw: Hardware, n: SmsrName, v: bv64)
    requires IsFullyWritable(n)
    requires Descriptor(n).address in hw
    ensures Write(hw, Named(n), v) == Ok(Commit(hw[Descriptor(n).address := v], v))
    ensures Read(hw[Descriptor(n).address := v], Named(n)) == Ok(v)
  {
    NamedAccess(hw, n, v);
    FullyWritableClassified(n);
    MergeExtremes(hw[Descriptor(n).address], v);
  }

  /** A write to an event select takes the requested low half and keeps the reserved high half. */
  lemma EventSelectKeepsHighHalf(hw: Hardware, n: SmsrName, v: bv64)
    requires IsEventSelect(n)
    requires Descriptor(n).address in hw
    ensures Write(hw, Named(n), v).Ok?
    ensures Low(Write(hw, Named(n), v).value.value) == Low(v)
    ensures High(Write(hw, Named(n), v).value.value) == High(hw[Descriptor(n).address])
  {
    NamedAccess(hw, n, v);
    EventSelectsClassified(n);
    MergeByHalves(hw[Descriptor(n).address], v, Descriptor(n));
  }

  /** PERF_CTL: only bit 32, the turbo disengage bit, is writable. */
  lemma PerfCtlMask()
    ensures Descriptor(PerfCtl).address == 0x199
    ensures forall k: bv64 | k < 64 :: Bit(MaskOf(PerfCtl), k) <==> k == 32
  {
    assert MaskOf(PerfCtl) == 0x1_0000_0000;
  }

  /** A write to PERF_CTL can change bit 32 only; the target performance value in bits 15:0 and
      every other bit keep their old values. */
  lemma PerfCtlOnlyTurboBit(hw: Hardware, v: bv64)
    requires 0x199 in hw
    ensures Write(hw, Named(PerfCtl), v).Ok?
    ensures Write(hw, Named(PerfCtl), v).value.hw == hw[0x199 := Write(hw, Named(PerfCtl), v).value.value]
    ensures forall k: bv64 | k < 64 ::
      Bit(Write(hw, Named(PerfCtl), v).value.value, k) == if k == 32 then Bit(v, k) else Bit(hw[0x199], k)
  {
    PerfCtlMask();
    MergeBits(hw[0x199], v, MaskOf(PerfCtl));
  }

  /** MISC_ENABLE: only bit 16 (Enhanced SpeedStep enable) and bit 38 (turbo mode disable) are writable. */
  lemma MiscEnableMask()
    ensures Descriptor(MiscEnable).address == 0x1A0
    ensures forall k: bv64 | k < 64 :: Bit(MaskOf(MiscEnable), k) <==> k == 16 || k == 38
  {
    assert MaskOf(MiscEnable) == 0x40_0001_0000;
  }

  /** A write to MISC_ENABLE can change bits 16 and 38 only. */
  lemma MiscEnableOnlySpeedstepAndTurbo(hw: Hardware, v: bv64)
    requires 0x1A0 in hw
    ensures Write(hw, Named(MiscEnable), v).Ok?
    ensures Write(hw, Named(MiscEnable), v).value.hw == hw[0x1A0 := Write(hw, Named(MiscEnable), v).value.value]
    ensures forall k: bv64 | k < 64 ::
      Bit(Write(hw, Named(MiscEnable), v).value.value, k) ==
        if k == 16 || k == 38 then Bit(v, k) else Bit(hw[0x1A0], k)
  {
    MiscEnableMask();
    MergeBits(hw[0x1A0], v, MaskOf(MiscEnable));
  }

  /** Clearing both writable MISC_ENABLE bits of a register that also has fast strings enabled
      leaves fast strings enabled. */
  lemma MiscEnableExample()
    ensures Write(map[0x1A0 := 0x40_0001_0001], Named(MiscEnable), 0) == Ok(Commit(map[0x1A0 := 0x1], 0x1))
  {
    var hw: Hardware := map[0x1A0 := 0x40_0001_0001];
    MiscEnableMask();
    assert MaskOf(MiscEnable) == 0x40_0001_0000 by {
      JoinSplit(MaskOf(MiscEnable));
    }
    assert hw[0x1A0 := 0x1] == map[0x1A0 := 0x1];
  }

  /** PERFEVTSEL0-7: bits 31:0 are writable and the reserved bits 63:32 are not. */
  lemma PerfEvtSelMask(n: SmsrName)
    requires IsEventSelect(n)
    ensures forall k: bv64 | k < 64 :: Bit(MaskOf(n), k) <==> k < 32
  {
    EventSelectsClassified(n);
  }

  /** THERM_INTERRUPT: the writable bits are 3:0 and 24:8; bit 4, which the table's comment
      lists as used, is left out of the mask. */
  lemma ThermInterruptMask()
    ensures forall k: bv64 | k < 64 :: Bit(MaskOf(ThermInterrupt), k) <==> k <= 3 || 8 <= k <= 24
  {
    assert MaskOf(ThermInterrupt) == 0x1FF_FF0F;
  }

  /** THERM_STATUS: only the clear-by-writing-zero log bits 1, 3, 5, 7, 9 and 11 are writable. */
  lemma ThermStatusMask()
    ensures forall k: bv64 | k < 64 :: Bit(MaskOf(ThermStatus), k) <==> k <= 11 && k & 1 == 1
  {
    assert MaskOf(ThermStatus) == 0xAAA;
  }

  /** OFFCORE_RSP_0: bits 11:0 and 37:15 are writable. */
  lemma OffcoreRsp0Mask()
    ensures forall k: bv64 | k < 64 :: Bit(MaskOf(OffcoreRsp0), k) <==> k <= 11 || 15 <= k <= 37
  {
    assert MaskOf(OffcoreRsp0) == 0x3F_FFFF_8FFF;
  }

  /** OFFCORE_RSP_1: the same bits as OFFCORE_RSP_0. */
  lemma OffcoreRsp1Mask()
    ensures forall k: bv64 | k < 64 :: Bit(MaskOf(OffcoreRsp1), k) <==> k <= 11 || 15 <= k <= 37
  {
    assert MaskOf(OffcoreRsp1) == 0x3F_FFFF_8FFF;
  }

  /** ENERGY_PERF_BIAS: bits 3:0 are writable. */
  lemma EnergyPerfBiasMask()
    ensures forall k: bv64 | k < 64 :: Bit(MaskOf(EnergyPerfBias), k) <==> k <= 3
  {
    assert MaskOf(EnergyPerfBias) == 0xF;
  }

  /** PACKAGE_THERM_INTERRUPT: bits 2:0 and 24:8 are writable; bit 4 (critical temperature
      interrupt) is deliberately not. */
  lemma PackageThermInterruptMask()
    ensures forall k: bv64 | k < 64 :: Bit(MaskOf(PackageThermInterrupt), k) <==> k <= 2 || 8 <= k <= 24
  {
    assert MaskOf(PackageThermInterrupt) == 0x1FF_FF07;
  }

  /** FIXED_CTR_CTRL: bits 1:0, 5:3, 9:7 and 11 are writable. */
  lemma FixedCtrCtrlMask()
    ensures forall k: bv64 | k < 64 ::
      Bit(MaskOf(FixedCtrCtrl), k) <==> k <= 1 || 3 <= k <= 5 || 7 <= k <= 9 || k == 11
  {
    assert MaskOf(FixedCtrCtrl) == 0xBBB;
  }

  /** PERF_GLOBAL_STATUS: bits 1:0, 34:32 and 63:62 are writable. */
  lemma PerfGlobalStatusMask()
    ensures forall k: bv64 | k < 64 :: Bit(MaskOf(PerfGlobalStatus), k) <==> k <= 1 || 32 <= k <= 34 || 62 <= k
  {
    assert MaskOf(PerfGlobalStatus) == 0xC000_0007_0000_0003;
  }

  /** PERF_GLOBAL_OVF_CTRL: bits 1:0, 34:32 and 63:62 are writable. */
  lemma PerfGlobalOvfCtrlMask()
    ensures forall k: bv64 | k < 64 :: Bit(MaskOf(PerfGlobalOvfCtrl), k) <==> k <= 1 || 32 <= k <= 34 || 62 <= k
  {
    assert MaskOf(PerfGlobalOvfCtrl) == 0xC000_0007_0000_0003;
  }

  /** PERF_GLOBAL_CTRL: bits 1:0 and 34:32 are writable. */
  lemma PerfGlobalCtrlMask()
    ensures forall k: bv64 | k < 64 :: Bit(MaskOf(PerfGlobalCtrl), k) <==> k <= 1 || 32 <= k <= 34
  {
    assert MaskOf(PerfGlobalCtrl) == 0x7_0000_0003;
  }

  /** PEBS_ENABLE: bits 3:0 and 35:32 are writable. */
  lemma PebsEnableMask()
    ensures forall k: bv64 | k < 64 :: Bit(MaskOf(PebsEnable), k) <==> k <= 3 || 32 <= k <= 35
  {
    assert MaskOf(PebsEnable) == 0xF_0000_000F;
  }

  /** PEBS_LD_LAT: bits 15:0 are writable. */
  lemma PebsLdLatMask()
    ensures forall k: bv64 | k < 64 :: Bit(MaskOf(PebsLdLat), k) <==> k <= 15
  {
    assert MaskOf(PebsLdLat) == 0xFFFF;
  }

  /** PACKAGE_THERM_STATUS: the mask 0x555 makes the even bits 0 to 10 writable, while the comment
      beside it names the odd bits 1 to 11 as the writable ones: none of those is writable. */
  lemma PackageThermStatusMask()
    ensures forall k: bv64 | k < 64 :: Bit(MaskOf(PackageThermStatus), k) <==> k <= 10 && k & 1 == 0
    ensures forall k: bv64 | k <= 11 && k & 1 == 1 :: !Bit(MaskOf(PackageThermStatus), k)
  {
    assert MaskOf(PackageThermStatus) == 0x555;
  }

  /** CLOCK_MODULATION: the mask 0x7 makes bits 2:0 writable, while the comment beside it says
      bits 4:0 are used: bits 3 and 4 cannot be written. */
  lemma ClockModulationMask()
    ensures forall k: bv64 | k < 64 :: Bit(MaskOf(ClockModulation), k) <==> k <= 2
    ensures !Bit(MaskOf(ClockModulation), 3) && !Bit(MaskOf(ClockModulation), 4)
  {
    assert MaskOf(ClockModulation) == 0x7;
  }

  /** FIXED_CTR1 and FIXED_CTR2 share address 0x30A: writing FIXED_CTR2 by name changes what a
      read of FIXED_CTR1 returns. */
  lemma FixedCountersAlias(hw: Hardware, v: bv64)
    requires 0x30A in hw
    ensures Write(hw, Named(FixedCtr2), v).Ok?
    ensures Read(Write(hw, Named(FixedCtr2), v).value.hw, Named(FixedCtr1)) == Ok(v)
  {
    FixedCounterSlots();
    FullyWritableStoresRequest(hw, FixedCtr2, v);
    NamedAccess(hw[0x30A := v], FixedCtr1, v);
  }
}
