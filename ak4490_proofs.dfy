/** What the AK4490 callbacks promise, proved about the call sequences of
    module Ak4490: how a checked sequence ends, and the register state that
    hw_params, set_bias_level and digital_mute leave behind. */
module Ak4490Proofs {
  import opened Regmap
  import opened Ak4490Header
  import opened Ak4490

  // ---------------------------------------------------------------- checked and unchecked sequences

  /** Calls that all succeed from k on take the map from the state after
      the first k calls to the state after all of them. */
  lemma {:induction false} RunFromSucceeds(l: Layout, m: RegMap, ops: seq<Op>, io: seq<int>, k: nat)
    requires k <= |ops|
    requires forall j :: k <= j < |ops| ==> Result(l, ops, io, j) == 0
    ensures RunFrom(l, Fold(m, ops, k), ops, io, k) == Run(0, Fold(m, ops, |ops|), |ops|)
    decreases |ops| - k
  {
    if k < |ops| {
      RunFromSucceeds(l, m, ops, io, k + 1);
    }
  }

  /** When every call succeeds the checked run issues them all, returns 0 and
      leaves the map every call has been applied to. */
  lemma RunCheckedSucceeds(l: Layout, m: RegMap, ops: seq<Op>, io: seq<int>)
    requires SucceedsBelow(l, ops, io, |ops|)
    ensures RunChecked(l, m, ops, io) == Run(0, Fold(m, ops, |ops|), |ops|)
  {
    RunFromSucceeds(l, m, ops, io, 0);
  }

  /** A run from k that returns 0 met no failing call from k on. */
  lemma {:induction false} RunFromZero(l: Layout, m: RegMap, ops: seq<Op>, io: seq<int>, k: nat)
    requires k <= |ops|
    requires RunFrom(l, m, ops, io, k).ret == 0
    ensures forall j :: k <= j < |ops| ==> Result(l, ops, io, j) == 0
    decreases |ops| - k
  {
    if k < |ops| {
      RunFromZero(l, Apply(m, ops[k]), ops, io, k + 1);
    }
  }

  /** A checked run returns 0 exactly when all of its calls succeeded; it
      then issued them all and left the map every call has been applied to. */
  lemma RunCheckedZero(l: Layout, m: RegMap, ops: seq<Op>, io: seq<int>)
    ensures RunChecked(l, m, ops, io).ret == 0 <==> SucceedsBelow(l, ops, io, |ops|)
    ensures RunChecked(l, m, ops, io).ret == 0 ==> RunChecked(l, m, ops, io) == Run(0, Fold(m, ops, |ops|), |ops|)
  {
    if RunChecked(l, m, ops, io).ret == 0 {
      RunFromZero(l, m, ops, io, 0);
    }
    if SucceedsBelow(l, ops, io, |ops|) {
      RunCheckedSucceeds(l, m, ops, io);
    }
  }

  /** Successful calls between j and k just carry the map along. */
  lemma {:induction false} RunFromPrefix(l: Layout, m: RegMap, ops: seq<Op>, io: seq<int>, j: nat, k: nat)
    requires j <= k <= |ops|
    requires SucceedsBelow(l, ops, io, k)
    ensures RunFrom(l, Fold(m, ops, j), ops, io, j) == RunFrom(l, Fold(m, ops, k), ops, io, k)
    decreases k - j
  {
    if j < k {
      assert Result(l, ops, io, j) == 0;
      RunFromPrefix(l, m, ops, io, j + 1, k);
    }
  }

  /** The first failing call k ends the run: its error is returned, k + 1
      calls have been issued, and the map is the one the first k left. */
  lemma RunCheckedStopsAtFirstError(l: Layout, m: RegMap, ops: seq<Op>, io: seq<int>, k: nat)
    requires k < |ops|
    requires SucceedsBelow(l, ops, io, k)
    requires Result(l, ops, io, k) < 0
    ensures RunChecked(l, m, ops, io) == Run(Result(l, ops, io, k), Fold(m, ops, k), k + 1)
  {
    RunFromPrefix(l, m, ops, io, 0, k);
  }

  /** An unchecked sequence whose calls all succeed leaves the same map as the
      checked one. */
  lemma {:induction false} RunAllSucceeds(l: Layout, m: RegMap, ops: seq<Op>, io: seq<int>, n: nat)
    requires n <= |ops|
    requires SucceedsBelow(l, ops, io, n)
    ensures RunAll(l, m, ops, io, n) == Fold(m, ops, n)
  {
    if n > 0 {
      RunAllSucceeds(l, m, ops, io, n - 1);
      assert Result(l, ops, io, n - 1) == 0;
    }
  }

  // ---------------------------------------------------------------- bit fields

  /** A value that lies inside a field's mask reads back whole through it. */
  lemma FieldValue(mask: bv8, val: bv8)
    requires val & !mask == 0
    ensures val & mask == val
  {}

  /** CONTROL1 written with RSTN_RESET and interface bits clear of RSTN reads
      RSTN as reset. */
  lemma ResetAsserted(b: Bits, dif: bv8)
    requires b.Valid()
    requires dif & b.rstn == 0
    ensures (b.acksManual | dif | b.rstnReset) & b.rstn == b.rstnReset
  {}

  /** Releasing reset in that word sets RSTN normal and keeps the other bits. */
  lemma ResetReleased(b: Bits, dif: bv8)
    requires b.Valid()
    ensures Merge(b.acksManual | dif | b.rstnReset, b.rstn, b.rstnNormal) & b.rstn == b.rstnNormal
    ensures Merge(b.acksManual | dif | b.rstnReset, b.rstn, b.rstnNormal) & !b.rstn == (b.acksManual | dif) & !b.rstn
  {}

  /** For the fixed STANDBY word the two RSTN updates undo each other. */
  lemma StandbyWord(b: Bits)
    requires b.Valid()
    ensures Merge(b.acksManual | b.difI2s32 | b.rstnReset, b.rstn, b.rstnNormal) == b.acksManual | b.difI2s32 | b.rstnNormal
    ensures Merge(b.acksManual | b.difI2s32 | b.rstnNormal, b.rstn, b.rstnReset) == b.acksManual | b.difI2s32 | b.rstnReset
  {}

  /** Clearing the CLK field of CLK_ENABLE leaves exactly CLK_DISABLE. */
  lemma ClockOff(b: Bits)
    requires b.Valid()
    ensures Merge(b.clkEnable, b.clk, b.clkDisable) == b.clkDisable
  {}

  // ---------------------------------------------------------------- hw_params

  /** With a valid layout every call of hw_params addresses a writeable
      register, so each returns exactly the bus's error, or 0. */
  lemma ParamsCallsReachBus(l: Layout, b: Bits, e: ModeEntry, io: seq<int>, k: nat)
    requires l.Valid()
    requires k < 5
    ensures |ParamsOps(l, b, e)| == 5
    ensures Result(l, ParamsOps(l, b, e), io, k) == if Answer(io, k) < 0 then Answer(io, k) else 0
  {}

  /** hw_params with every bus call answered successfully issues all five
      calls, returns 0 and leaves the map all five have been applied to. */
  lemma ParamsSucceed(l: Layout, b: Bits, e: ModeEntry, m: RegMap, io: seq<int>)
    requires l.Valid()
    requires forall k :: 0 <= k < 5 ==> Answer(io, k) >= 0
    ensures RunChecked(l, m, ParamsOps(l, b, e), io) == Run(0, Fold(m, ParamsOps(l, b, e), 5), 5)
  {
    var ops := ParamsOps(l, b, e);
    forall k | 0 <= k < 5 ensures Result(l, ops, io, k) == 0 {
      ParamsCallsReachBus(l, b, e, io, k);
    }
    RunCheckedSucceeds(l, m, ops, io);
  }

  /** Conversely, hw_params returning 0 means every one of its five bus calls
      was answered with success, so the map is the one all five leave. */
  lemma ParamsZero(l: Layout, b: Bits, e: ModeEntry, m: RegMap, io: seq<int>)
    requires l.Valid()
    requires RunChecked(l, m, ParamsOps(l, b, e), io).ret == 0
    ensures forall k :: 0 <= k < 5 ==> Answer(io, k) >= 0
    ensures RunChecked(l, m, ParamsOps(l, b, e), io) == Run(0, Fold(m, ParamsOps(l, b, e), 5), 5)
  {
    var ops := ParamsOps(l, b, e);
    RunCheckedZero(l, m, ops, io);
    forall k | 0 <= k < 5 ensures Answer(io, k) >= 0 {
      assert Result(l, ops, io, k) == 0;
      ParamsCallsReachBus(l, b, e, io, k);
    }
  }

  /** If the bus fails call k of hw_params, the calls before it having
      succeeded, hw_params returns that call's error having issued k + 1
      calls, and the map holds what the first k calls left. */
  lemma ParamsStopAtFirstError(l: Layout, b: Bits, e: ModeEntry, m: RegMap, io: seq<int>, k: nat)
    requires l.Valid()
    requires k < 5
    requires forall j :: 0 <= j < k ==> Answer(io, j) >= 0
    requires Answer(io, k) < 0
    ensures RunChecked(l, m, ParamsOps(l, b, e), io) == Run(Answer(io, k), Fold(m, ParamsOps(l, b, e), k), k + 1)
  {
    var ops := ParamsOps(l, b, e);
    forall j | 0 <= j < k ensures Result(l, ops, io, j) == 0 {
      ParamsCallsReachBus(l, b, e, io, j);
    }
    ParamsCallsReachBus(l, b, e, io, k);
    RunCheckedStopsAtFirstError(l, m, ops, io, k);
  }

  /** After hw_params has succeeded: CONTROL1 holds the first write's value
      with its RSTN field replaced by RSTN_NORMAL, CONTROL2 and CONTROL4 have
      had only their DFSL and DFSH fields replaced by the entry's values,
      EXT_CLKGEN holds CLK_ENABLE | clkgen, and every other register is
      unchanged. */
  lemma ParamsFinalState(l: Layout, b: Bits, e: ModeEntry, m: RegMap)
    requires l.Valid()
    ensures var f := Fold(m, ParamsOps(l, b, e), 5);
      && Get(f, l.control1) == Merge(b.acksManual | e.dif | b.rstnReset, b.rstn, b.rstnNormal)
      && Get(f, l.control2) == Merge(Get(m, l.control2), b.dfsl, e.dfsl)
      && Get(f, l.control4) == Merge(Get(m, l.control4), b.dfsh, e.dfsh)
      && Get(f, l.extClkgen) == b.clkEnable | e.clkgen
      && forall reg :: reg != l.control1 && reg != l.control2 && reg != l.control4 && reg != l.extClkgen ==>
           Get(f, reg) == Get(m, reg)
  {
    var ops := ParamsOps(l, b, e);
    ParamsControl1Steps(l, b, e, m);
    FoldGetOther(m, ops, 0, l.control2);
    FoldGetUpdate(m, ops, 1, l.control2, b.dfsl, e.dfsl);
    FoldGetOther(m, ops, 2, l.control2);
    FoldGetOther(m, ops, 3, l.control2);
    FoldGetOther(m, ops, 4, l.control2);
    FoldGetOther(m, ops, 0, l.control4);
    FoldGetOther(m, ops, 1, l.control4);
    FoldGetUpdate(m, ops, 2, l.control4, b.dfsh, e.dfsh);
    FoldGetOther(m, ops, 3, l.control4);
    FoldGetOther(m, ops, 4, l.control4);
    FoldGetWrite(m, ops, 3, l.extClkgen, b.clkEnable | e.clkgen);
    FoldGetOther(m, ops, 4, l.extClkgen);
    forall reg | reg != l.control1 && reg != l.control2 && reg != l.control4 && reg != l.extClkgen
      ensures Get(Fold(m, ops, 5), reg) == Get(m, reg)
    {
      FoldFrame(m, ops, 5, reg);
    }
  }

  /** CONTROL1 across hw_params: the first call writes it, the next three
      leave it, the fifth releases RSTN; EXT_CLKGEN is written by the fourth. */
  lemma ParamsControl1Steps(l: Layout, b: Bits, e: ModeEntry, m: RegMap)
    requires l.Valid()
    ensures var ops := ParamsOps(l, b, e);
      && (forall k :: 1 <= k <= 4 ==> Get(Fold(m, ops, k), l.control1) == b.acksManual | e.dif | b.rstnReset)
      && Get(Fold(m, ops, 4), l.extClkgen) == b.clkEnable | e.clkgen
      && Get(Fold(m, ops, 5), l.control1) == Merge(b.acksManual | e.dif | b.rstnReset, b.rstn, b.rstnNormal)
  {
    var ops := ParamsOps(l, b, e);
    FoldGetWrite(m, ops, 0, l.control1, b.acksManual | e.dif | b.rstnReset);
    FoldGetOther(m, ops, 1, l.control1);
    FoldGetOther(m, ops, 2, l.control1);
    FoldGetOther(m, ops, 3, l.control1);
    FoldGetWrite(m, ops, 3, l.extClkgen, b.clkEnable | e.clkgen);
    FoldGetUpdate(m, ops, 4, l.control1, b.rstn, b.rstnNormal);
  }

  /** So CONTROL1 ends with RSTN normal and the clock-source and
      interface-format bits of the first write. */
  lemma ParamsControl1(l: Layout, b: Bits, e: ModeEntry, m: RegMap)
    requires l.Valid() && b.Valid()
    ensures var c1 := Get(Fold(m, ParamsOps(l, b, e), 5), l.control1);
      && c1 & b.rstn == b.rstnNormal
      && c1 & !b.rstn == (b.acksManual | e.dif) & !b.rstn
  {
    ParamsFinalState(l, b, e, m);
    ResetReleased(b, e.dif);
  }

  /** Reset is held until the last call: after each of the first four calls
      of hw_params CONTROL1's RSTN field reads as reset (given the entry's
      interface-format bits stay clear of RSTN), and by the time the fifth
      call releases it EXT_CLKGEN already holds CLK_ENABLE | clkgen. */
  lemma ParamsResetHeldUntilLast(l: Layout, b: Bits, e: ModeEntry, m: RegMap, k: nat)
    requires l.Valid() && b.Valid()
    requires e.dif & b.rstn == 0
    requires 1 <= k <= 4
    ensures Get(Fold(m, ParamsOps(l, b, e), k), l.control1) & b.rstn == b.rstnReset
    ensures k == 4 ==> Get(Fold(m, ParamsOps(l, b, e), k), l.extClkgen) == b.clkEnable | e.clkgen
  {
    ParamsControl1Steps(l, b, e, m);
    ResetAsserted(b, e.dif);
  }

  /** A hw_params that fails at any call after the first leaves the chip in
      reset: the map it leaves has CONTROL1's RSTN field at reset. */
  lemma ParamsFailureHoldsReset(l: Layout, b: Bits, e: ModeEntry, m: RegMap, io: seq<int>, k: nat)
    requires l.Valid() && b.Valid()
    requires e.dif & b.rstn == 0
    requires 1 <= k < 5
    requires forall j :: 0 <= j < k ==> Answer(io, j) >= 0
    requires Answer(io, k) < 0
    ensures Get(RunChecked(l, m, ParamsOps(l, b, e), io).regs, l.control1) & b.rstn == b.rstnReset
  {
    ParamsStopAtFirstError(l, b, e, m, io, k);
    ParamsResetHeldUntilLast(l, b, e, m, k);
  }

  // ---------------------------------------------------------------- set_bias_level

  /** The map after each prefix of STANDBY's calls, whatever each returned. */
  lemma StandbyPrefixes(l: Layout, b: Bits, m: RegMap, io: seq<int>)
    requires l.Valid()
    ensures var ops := BiasOps(l, b, Standby);
      var p1 := if Answer(io, 0) < 0 then m else m[l.control1 := b.acksManual | b.difI2s32 | b.rstnReset];
      var p2 := if Answer(io, 1) < 0 then p1 else p1[l.extClkgen := b.clkEnable];
      var p3 := if Answer(io, 2) < 0 then p2 else p2[l.control1 := Merge(Get(p2, l.control1), b.rstn, b.rstnNormal)];
      && RunAll(l, m, ops, io, 1) == p1
      && RunAll(l, m, ops, io, 2) == p2
      && RunAll(l, m, ops, io, 3) == p3
  {
    var ops := BiasOps(l, b, Standby);
    RunAllWrite(l, m, ops, io, 0, l.control1, b.acksManual | b.difI2s32 | b.rstnReset);
    RunAllWrite(l, m, ops, io, 1, l.extClkgen, b.clkEnable);
    RunAllUpdate(l, m, ops, io, 2, l.control1, b.rstn, b.rstnNormal);
  }

  /** The map after each prefix of OFF's calls, whatever each returned. */
  lemma OffPrefixes(l: Layout, b: Bits, m: RegMap, io: seq<int>)
    requires l.Valid()
    ensures var ops := BiasOps(l, b, Off);
      var p1 := if Answer(io, 0) < 0 then m else m[l.control1 := Merge(Get(m, l.control1), b.rstn, b.rstnReset)];
      var p2 := if Answer(io, 1) < 0 then p1 else p1[l.extClkgen := Merge(Get(p1, l.extClkgen), b.clk, b.clkDisable)];
      && RunAll(l, m, ops, io, 1) == p1
      && RunAll(l, m, ops, io, 2) == p2
  {
    var ops := BiasOps(l, b, Off);
    RunAllUpdate(l, m, ops, io, 0, l.control1, b.rstn, b.rstnReset);
    RunAllUpdate(l, m, ops, io, 1, l.extClkgen, b.clk, b.clkDisable);
  }

  /** STANDBY with every call succeeding: CONTROL1 ends as the first write's
      clock-source and interface-format bits with RSTN normal, EXT_CLKGEN holds
      CLK_ENABLE, and no other register changes. */
  lemma StandbyBringsUp(l: Layout, b: Bits, m: RegMap, io: seq<int>)
    requires l.Valid() && b.Valid()
    requires forall k :: 0 <= k < 3 ==> Answer(io, k) >= 0
    ensures var f := RunAll(l, m, BiasOps(l, b, Standby), io, 3);
      && Get(f, l.control1) == b.acksManual | b.difI2s32 | b.rstnNormal
      && Get(f, l.extClkgen) == b.clkEnable
      && forall reg :: reg != l.control1 && reg != l.extClkgen ==> Get(f, reg) == Get(m, reg)
  {
    StandbyPrefixes(l, b, m, io);
    assert Answer(io, 0) >= 0 && Answer(io, 1) >= 0 && Answer(io, 2) >= 0;
    StandbyWord(b);
  }

  /** STANDBY releases reset last: once its first two calls have succeeded,
      RSTN still reads as reset and EXT_CLKGEN already holds CLK_ENABLE. */
  lemma StandbyReleasesResetLast(l: Layout, b: Bits, m: RegMap, io: seq<int>)
    requires l.Valid() && b.Valid()
    requires Answer(io, 0) >= 0 && Answer(io, 1) >= 0
    ensures var p := RunAll(l, m, BiasOps(l, b, Standby), io, 2);
      && Get(p, l.control1) & b.rstn == b.rstnReset
      && Get(p, l.extClkgen) == b.clkEnable
  {
    StandbyPrefixes(l, b, m, io);
    ResetAsserted(b, b.difI2s32);
  }

  /** STANDBY's failures are ignored: whatever the first two calls returned,
      a successful third call leaves RSTN normal, and no register other than
      CONTROL1 and EXT_CLKGEN ever changes. */
  lemma StandbyIgnoresFailures(l: Layout, b: Bits, m: RegMap, io: seq<int>)
    requires l.Valid() && b.Valid()
    ensures var f := RunAll(l, m, BiasOps(l, b, Standby), io, 3);
      && (Answer(io, 2) >= 0 ==> Get(f, l.control1) & b.rstn == b.rstnNormal)
      && forall reg :: reg != l.control1 && reg != l.extClkgen ==> Get(f, reg) == Get(m, reg)
  {
    StandbyPrefixes(l, b, m, io);
    var p2 := RunAll(l, m, BiasOps(l, b, Standby), io, 2);
    FieldValue(b.rstn, b.rstnNormal);
  }

  /** OFF: each call that succeeds does its part (RSTN to reset in CONTROL1,
      the CLK field to disabled in EXT_CLKGEN), one that fails leaves its
      register alone, and no other register changes. */
  lemma OffPowersDown(l: Layout, b: Bits, m: RegMap, io: seq<int>)
    requires l.Valid()
    ensures var f := RunAll(l, m, BiasOps(l, b, Off), io, 2);
      && Get(f, l.control1) == (if Answer(io, 0) < 0 then Get(m, l.control1)
                                else Merge(Get(m, l.control1), b.rstn, b.rstnReset))
      && Get(f, l.extClkgen) == (if Answer(io, 1) < 0 then Get(m, l.extClkgen)
                                  else Merge(Get(m, l.extClkgen), b.clk, b.clkDisable))
      && forall reg :: reg != l.control1 && reg != l.extClkgen ==> Get(f, reg) == Get(m, reg)
  {
    OffPrefixes(l, b, m, io);
  }

  /** STANDBY followed by OFF, every call succeeding, returns CONTROL1 to the
      value STANDBY first wrote (reset asserted) and leaves EXT_CLKGEN holding
      exactly CLK_DISABLE; every other register is as before STANDBY. */
  lemma StandbyThenOff(l: Layout, b: Bits, m: RegMap, io1: seq<int>, io2: seq<int>)
    requires l.Valid() && b.Valid()
    requires forall k :: 0 <= k < 3 ==> Answer(io1, k) >= 0
    requires forall k :: 0 <= k < 2 ==> Answer(io2, k) >= 0
    ensures var s := RunAll(l, m, BiasOps(l, b, Standby), io1, 3);
      var f := RunAll(l, s, BiasOps(l, b, Off), io2, 2);
      && Get(f, l.control1) == b.acksManual | b.difI2s32 | b.rstnReset
      && Get(f, l.extClkgen) == b.clkDisable
      && forall reg :: reg != l.control1 && reg != l.extClkgen ==> Get(f, reg) == Get(m, reg)
  {
    var s := RunAll(l, m, BiasOps(l, b, Standby), io1, 3);
    StandbyBringsUp(l, b, m, io1);
    OffPowersDown(l, b, s, io2);
    assert Answer(io2, 0) >= 0 && Answer(io2, 1) >= 0;
    StandbyWord(b);
    ClockOff(b);
  }

  // ---------------------------------------------------------------- digital_mute

  /** digital_mute changes nothing but the SMUTE bits of CONTROL2, which end
      as !!mute masked by SMUTE; a failed call returns its error and leaves
      the map alone. */
  lemma MuteTouchesOnlySmute(l: Layout, b: Bits, m: RegMap, mute: int, answer: int)
    requires l.Valid()
    ensures var run := RunChecked(l, m, [MuteOp(l, b, mute)], [answer]);
      && run.issued == 1
      && (answer < 0 ==> run.ret == answer && run.regs == m)
      && (answer >= 0 ==>
            && run.ret == 0
            && Get(run.regs, l.control2) & b.smute == (if mute != 0 then 1 else 0) & b.smute
            && Get(run.regs, l.control2) & !b.smute == Get(m, l.control2) & !b.smute
            && forall reg :: reg != l.control2 ==> Get(run.regs, reg) == Get(m, reg))
  {
    var ops := [MuteOp(l, b, mute)];
    assert Result(l, ops, [answer], 0) == if answer < 0 then answer else 0;
    RunFromStep(l, m, ops, [answer], 0);
  }

  // ---------------------------------------------------------------- permissions

  /** Every readable register is writeable, no register is volatile, and
      EXT_CLKGEN (the highest register) may be written but not read. */
  lemma PermissionsNest(l: Layout)
    requires l.Valid()
    ensures forall reg :: Readable(l, reg) ==> Writeable(l, reg)
    ensures forall reg :: !Volatile(l, reg)
    ensures Writeable(l, l.extClkgen) && !Readable(l, l.extClkgen)
  {}
}
