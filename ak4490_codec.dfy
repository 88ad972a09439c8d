/** One AK4490 codec instance driven through its register map: the
    callbacks as methods, each proved against the call-sequence
    specifications of module Ak4490. */
module Ak4490Codec {
  import opened Kernel
  import opened Regmap
  import opened Ak4490Header
  import opened Ak4490
  import Ak4490Proofs

  // ---------------------------------------------------------------- the codec instance

  /** One codec instance: its private data (format, rate) and its register map.
      `log` records every register call issued, in order, whatever it returned. */
  class Codec {
    const layout: Layout
    const bits: Bits
    const dai: FmtBits
    const table: ModeTable

    var regs: RegMap
    var log: seq<Op>
    var format: bv32
    var rate: int

    ghost predicate Valid() {
      layout.Valid() && bits.Valid() && dai.Valid()
    }

    /** A fresh instance: zeroed private data, the register map seeded from the
        defaults table, nothing issued yet. */
    constructor (layout: Layout, bits: Bits, dai: FmtBits, table: ModeTable)
      requires layout.Valid() && bits.Valid() && dai.Valid()
      ensures Valid()
      ensures this.layout == layout && this.bits == bits && this.dai == dai && this.table == table
      ensures regs == Defaults(layout) && log == [] && format == 0 && rate == 0
    {
      this.layout, this.bits, this.dai, this.table := layout, bits, dai, table;
      regs := Defaults(layout);
      log := [];
      format, rate := 0, 0;
    }

    /** regmap_write. */
    method RegmapWrite(reg: nat, val: bv8, answer: int) returns (ret: int)
      modifies this
      ensures log == old(log) + [Write(reg, val)]
      ensures ret == CallResult(layout, Write(reg, val), answer)
      ensures regs == Step(layout, old(regs), Write(reg, val), answer)
      ensures format == old(format) && rate == old(rate)
    {
      log := log + [Write(reg, val)];
      ret := CallResult(layout, Write(reg, val), answer);
      if ret == 0 {
        regs := Apply(regs, Write(reg, val));
      }
    }

    /** regmap_update_bits: a read-modify-write of the cached value. */
    method RegmapUpdateBits(reg: nat, mask: bv8, val: bv8, answer: int) returns (ret: int)
      modifies this
      ensures log == old(log) + [UpdateBits(reg, mask, val)]
      ensures ret == CallResult(layout, UpdateBits(reg, mask, val), answer)
      ensures regs == Step(layout, old(regs), UpdateBits(reg, mask, val), answer)
      ensures format == old(format) && rate == old(rate)
    {
      log := log + [UpdateBits(reg, mask, val)];
      ret := CallResult(layout, UpdateBits(reg, mask, val), answer);
      if ret == 0 {
        regs := Apply(regs, UpdateBits(reg, mask, val));
      }
    }

    /** regmap_read: answered from the cache. */
    method RegmapRead(reg: nat, answer: int) returns (ret: int, val: bv8)
      modifies this
      ensures log == old(log) + [Read(reg)]
      ensures ret == CallResult(layout, Read(reg), answer)
      ensures val == Get(regs, reg)
      ensures regs == old(regs) && format == old(format) && rate == old(rate)
    {
      log := log + [Read(reg)];
      ret := CallResult(layout, Read(reg), answer);
      val := Get(regs, reg);
    }

    /** set_bias_level: issues the level's calls in order, ignores what they
        return, and always returns 0. */
    method SetBiasLevel(level: BiasLevel, io: seq<int>) returns (ret: int)
      modifies this
      ensures ret == 0
      ensures log == old(log) + BiasOps(layout, bits, level)
      ensures regs == RunAll(layout, old(regs), BiasOps(layout, bits, level), io, |BiasOps(layout, bits, level)|)
      ensures format == old(format) && rate == old(rate)
    {
      var ops := BiasOps(layout, bits, level);
      ghost var m0, log0 := regs, log;
      assert log == log + ops[..0];
      match level {
      case On =>
      case Prepare =>
      case Standby =>
        assert |ops| == 3 && !ops[0].Read? && !ops[1].Read? && !ops[2].Read?;
        var r0 := IssueUnchecked(ops, io, 0, m0, log0);
        var r1 := IssueUnchecked(ops, io, 1, m0, log0);
        var r2 := IssueUnchecked(ops, io, 2, m0, log0);
        assert ops[..3] == ops;
      case Off =>
        assert |ops| == 2 && !ops[0].Read? && !ops[1].Read?;
        var r0 := IssueUnchecked(ops, io, 0, m0, log0);
        var r1 := IssueUnchecked(ops, io, 1, m0, log0);
        assert ops[..2] == ops;
      }
      ret := 0;
    }

    /** set_dai_fmt: stores the format first, then checks it; no register call. */
    method SetDaiFmt(fmt: bv32) returns (ret: int)
      modifies this
      ensures format == fmt
      ensures ret == CheckDaiFmt(dai, fmt)
      ensures regs == old(regs) && log == old(log) && rate == old(rate)
    {
      format := fmt;
      ret := CheckDaiFmt(dai, fmt);
    }

    /** One register call of a callback, written or read-modify-written as
        the call says. */
    method Issue(op: Op, answer: int) returns (ret: int)
      requires !op.Read?
      modifies this
      ensures log == old(log) + [op]
      ensures ret == CallResult(layout, op, answer)
      ensures regs == Step(layout, old(regs), op, answer)
      ensures format == old(format) && rate == old(rate)
    {
      match op {
      case Write(reg, val) => ret := RegmapWrite(reg, val, answer);
      case UpdateBits(reg, mask, val) => ret := RegmapUpdateBits(reg, mask, val, answer);
      }
    }

    /** A callback that started from map `m0` and log `log0` has issued the
        first k calls of `ops`, all successfully. */
    ghost predicate Reached(m0: RegMap, log0: seq<Op>, ops: seq<Op>, io: seq<int>, k: nat)
      reads this
    {
      && k <= |ops|
      && RunFrom(layout, m0, ops, io, 0) == RunFrom(layout, regs, ops, io, k)
      && log == log0 + ops[..k]
    }

    /** Issue the k-th call of a checked sequence. */
    method IssueNext(ops: seq<Op>, io: seq<int>, k: nat, ghost m0: RegMap, ghost log0: seq<Op>) returns (ret: int)
      requires k < |ops| && !ops[k].Read? && Reached(m0, log0, ops, io, k)
      modifies this
      ensures format == old(format) && rate == old(rate)
      ensures ret == Result(layout, ops, io, k)
      ensures ret < 0 ==>
        var run := RunChecked(layout, m0, ops, io);
        ret == run.ret && regs == run.regs && log == log0 + ops[..run.issued]
      ensures ret == 0 ==> Reached(m0, log0, ops, io, k + 1)
    {
      ghost var m := regs;
      ret := Issue(ops[k], Answer(io, k));
      RunFromStep(layout, m, ops, io, k);
      SnocPrefix(log0, ops, k);
    }

    /** A callback that started from map `m0` and log `log0` has issued the
        first k calls of `ops`, whatever each returned. */
    ghost predicate IssuedAll(m0: RegMap, log0: seq<Op>, ops: seq<Op>, io: seq<int>, k: nat)
      reads this
    {
      && k <= |ops|
      && regs == RunAll(layout, m0, ops, io, k)
      && log == log0 + ops[..k]
    }

    /** Issue the k-th call of an unchecked sequence. */
    method IssueUnchecked(ops: seq<Op>, io: seq<int>, k: nat, ghost m0: RegMap, ghost log0: seq<Op>) returns (ret: int)
      requires k < |ops| && !ops[k].Read? && IssuedAll(m0, log0, ops, io, k)
      modifies this
      ensures format == old(format) && rate == old(rate)
      ensures ret == Result(layout, ops, io, k)
      ensures IssuedAll(m0, log0, ops, io, k + 1)
    {
      ret := Issue(ops[k], Answer(io, k));
      SnocPrefix(log0, ops, k);
    }

    /** digital_mute: one update of CONTROL2's SMUTE field; returns the
        register map's error, or 0. */
    method DigitalMute(mute: int, answer: int) returns (ret: int)
      modifies this
      ensures log == old(log) + [MuteOp(layout, bits, mute)]
      ensures var run := RunChecked(layout, old(regs), [MuteOp(layout, bits, mute)], [answer]);
        ret == run.ret && regs == run.regs
      ensures format == old(format) && rate == old(rate)
    {
      var ops := [MuteOp(layout, bits, mute)];
      assert log == log + ops[..0];
      ret := IssueNext(ops, [answer], 0, regs, log);
      if ret < 0 {
        return ret;
      }
      return 0;
    }

    /** The register half of hw_params for the mode-table entry `e`: the five
        calls of ParamsOps in order, stopping at the first error and returning
        it; after the fifth succeeds, EXT_CLKGEN is read back, the read's
        result ignored, and 0 returned. */
    method ProgramMode(e: ModeEntry, io: seq<int>) returns (ret: int)
      modifies this
      ensures format == old(format) && rate == old(rate)
      ensures var ops := ParamsOps(layout, bits, e);
        var run := RunChecked(layout, old(regs), ops, io);
        && ret == run.ret
        && regs == run.regs
        && log == if run.ret == 0 then old(log) + ops[..run.issued] + [Read(layout.extClkgen)]
                  else old(log) + ops[..run.issued]
    {
      var ops := ParamsOps(layout, bits, e);
      assert |ops| == 5 && !ops[0].Read? && !ops[1].Read? && !ops[2].Read? && !ops[3].Read? && !ops[4].Read?;
      ghost var m0, log0 := regs, log;
      assert log == log + ops[..0];

      ret := IssueNext(ops, io, 0, m0, log0);
      if ret < 0 {
        return ret;
      }
      ret := IssueNext(ops, io, 1, m0, log0);
      if ret < 0 {
        return ret;
      }
      ret := IssueNext(ops, io, 2, m0, log0);
      if ret < 0 {
        return ret;
      }
      ret := IssueNext(ops, io, 3, m0, log0);
      if ret < 0 {
        return ret;
      }
      ret := IssueNext(ops, io, 4, m0, log0);
      if ret < 0 {
        return ret;
      }
      var readRet, clkgen := RegmapRead(layout.extClkgen, Answer(io, 5));
      return 0;
    }

    /** hw_params: records the rate, rejects a (rate, width) pair missing from
        the mode table with -EINVAL before any register call, and otherwise
        programs the first matching entry. */
    method HwParams(rate: int, width: int, io: seq<int>) returns (ret: int)
      requires Valid()
      modifies this
      ensures this.rate == rate && format == old(format)
      ensures ret == 0 ==>
        && 0 <= FirstMatch(table, rate, width)
        && Get(regs, layout.control1) & bits.rstn == bits.rstnNormal
        && Get(regs, layout.extClkgen) == bits.clkEnable | table[FirstMatch(table, rate, width)].clkgen
      ensures var i := FirstMatch(table, rate, width);
        if i == -1 then
          ret == -EINVAL && regs == old(regs) && log == old(log)
        else
          var ops := ParamsOps(layout, bits, table[i]);
          var run := RunChecked(layout, old(regs), ops, io);
          && ret == run.ret
          && regs == run.regs
          && log == if run.ret == 0 then old(log) + ops[..run.issued] + [Read(layout.extClkgen)]
                    else old(log) + ops[..run.issued]
    {
      this.rate := rate;
      var i := GetModeReg(table, rate, width);
      if i == -1 {
        return -EINVAL;
      }
      ghost var m0 := regs;
      ret := ProgramMode(table[i], io);
      if ret == 0 {
        Ak4490Proofs.ParamsZero(layout, bits, table[i], m0, io);
        Ak4490Proofs.ParamsControl1(layout, bits, table[i], m0);
        Ak4490Proofs.ParamsFinalState(layout, bits, table[i], m0);
      }
    }
  }
}
