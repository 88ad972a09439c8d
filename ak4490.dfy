/** The AK4490 codec driver: register permissions, register defaults, and the
    callbacks that drive the chip through its register map (bias level, DAI
    format, digital mute, hardware parameters). */
module Ak4490 {
  import opened Kernel
  import opened Regmap
  import opened Ak4490Header

  // ---------------------------------------------------------------- permissions

  predicate Readable(l: Layout, reg: nat) {
    reg <= l.control8
  }

  predicate Writeable(l: Layout, reg: nat) {
    reg <= l.extClkgen
  }

  predicate Volatile(l: Layout, reg: nat) {
    false
  }

  /** The register map's initial contents, seeded from the defaults table.
      Every register it holds may be written, and all but EXT_CLKGEN read. */
  function Defaults(l: Layout): (m: RegMap)
    ensures l.Valid() ==> forall reg :: reg in m ==>
      Writeable(l, reg) && (Readable(l, reg) <==> reg != l.extClkgen)
    ensures Get(m, l.extClkgen) == 0x88
  {
    map[l.control1 := 0x04, l.control2 := 0x22, l.control3 := 0x00,
        l.attl := 0xFF, l.attr := 0xFF, l.control4 := 0x00,
        l.control5 := 0x00, l.control6 := 0x00, l.control7 := 0x00,
        l.control8 := 0x00, l.extClkgen := 0x88]
  }

  // ---------------------------------------------------------------- calls into the register map

  /** The bus's answer to the k-th register call of one callback
      (0 or a negative error number; a missing answer is success). */
  function Answer(io: seq<int>, k: nat): int {
    if k < |io| then io[k] else 0
  }

  /** What a register call returns: -EIO for a write to a register that is not
      writeable (the bus is never asked), otherwise the bus's error or 0. */
  function CallResult(l: Layout, op: Op, answer: int): (ret: int)
    ensures ret <= 0
    ensures ret == 0 ==> answer >= 0
    ensures !op.Read? && !Writeable(l, op.reg) ==> ret == -EIO
    ensures (op.Read? || Writeable(l, op.reg)) && answer < 0 ==> ret == answer
    ensures (op.Read? || Writeable(l, op.reg)) && answer >= 0 ==> ret == 0
  {
    if !op.Read? && !Writeable(l, op.reg) then -EIO
    else if answer < 0 then answer
    else 0
  }

  /** The result of the k-th call of `ops`. */
  function Result(l: Layout, ops: seq<Op>, io: seq<int>, k: nat): int
    requires k < |ops|
  {
    CallResult(l, ops[k], Answer(io, k))
  }

  predicate SucceedsBelow(l: Layout, ops: seq<Op>, io: seq<int>, k: nat)
    requires k <= |ops|
  {
    forall j :: 0 <= j < k ==> Result(l, ops, io, j) == 0
  }

  /** The outcome of a checked call sequence: the value returned, the map left
      behind and how many calls were issued. */
  datatype Run = Run(ret: int, regs: RegMap, issued: nat)

  /** Issue ops[k..] in order, stopping at (and returning) the first error. */
  function RunFrom(l: Layout, m: RegMap, ops: seq<Op>, io: seq<int>, k: nat): (r: Run)
    requires k <= |ops|
    ensures k <= r.issued <= |ops|
    decreases |ops| - k
  {
    if k == |ops| then Run(0, m, k)
    else if Result(l, ops, io, k) < 0 then Run(Result(l, ops, io, k), m, k + 1)
    else RunFrom(l, Apply(m, ops[k]), ops, io, k + 1)
  }

  function RunChecked(l: Layout, m: RegMap, ops: seq<Op>, io: seq<int>): (r: Run)
    ensures r.issued <= |ops|
  {
    RunFrom(l, m, ops, io, 0)
  }

  /** The map after one call: changed when the call succeeds, untouched when it fails. */
  function Step(l: Layout, m: RegMap, op: Op, answer: int): RegMap {
    if CallResult(l, op, answer) == 0 then Apply(m, op) else m
  }

  /** A write or update to a register that is not writeable fails with -EIO
      and leaves the map as it was. */
  lemma UnwriteableLeavesMap(l: Layout, m: RegMap, op: Op, answer: int)
    requires !op.Read? && !Writeable(l, op.reg)
    ensures CallResult(l, op, answer) == -EIO
    ensures Step(l, m, op, answer) == m
  {}

  /** Issue the first n calls of `ops` in order whatever each returns; the
      calls that succeed take effect. */
  function RunAll(l: Layout, m: RegMap, ops: seq<Op>, io: seq<int>, n: nat): RegMap
    requires n <= |ops|
  {
    if n == 0 then m else Step(l, RunAll(l, m, ops, io, n - 1), ops[n - 1], Answer(io, n - 1))
  }

  lemma RunAllWrite(l: Layout, m: RegMap, ops: seq<Op>, io: seq<int>, k: nat, reg: nat, val: bv8)
    requires k < |ops| && ops[k] == Write(reg, val) && Writeable(l, reg)
    ensures RunAll(l, m, ops, io, k + 1) ==
      if Answer(io, k) < 0 then RunAll(l, m, ops, io, k) else RunAll(l, m, ops, io, k)[reg := val]
  {}

  lemma RunAllUpdate(l: Layout, m: RegMap, ops: seq<Op>, io: seq<int>, k: nat, reg: nat, mask: bv8, val: bv8)
    requires k < |ops| && ops[k] == UpdateBits(reg, mask, val) && Writeable(l, reg)
    ensures var p := RunAll(l, m, ops, io, k);
      RunAll(l, m, ops, io, k + 1) == if Answer(io, k) < 0 then p else p[reg := Merge(Get(p, reg), mask, val)]
  {}

  // ---------------------------------------------------------------- the callbacks' register calls

  datatype BiasLevel = Off | Standby | Prepare | On

  /** The calls set_bias_level issues for each level. */
  function BiasOps(l: Layout, b: Bits, level: BiasLevel): (r: seq<Op>)
    ensures |r| == 0 <==> level == On || level == Prepare
    ensures forall k :: 0 <= k < |r| ==> !r[k].Read? && (r[k].reg == l.control1 || r[k].reg == l.extClkgen)
  {
    match level
    case On => []
    case Prepare => []
    case Standby => [
      Write(l.control1, b.acksManual | b.difI2s32 | b.rstnReset),
      Write(l.extClkgen, b.clkEnable),
      UpdateBits(l.control1, b.rstn, b.rstnNormal)]
    case Off => [
      UpdateBits(l.control1, b.rstn, b.rstnReset),
      UpdateBits(l.extClkgen, b.clk, b.clkDisable)]
  }

  /** The five calls hw_params issues for a mode-table entry, in order. */
  function ParamsOps(l: Layout, b: Bits, e: ModeEntry): (r: seq<Op>)
    ensures |r| == 5
    ensures forall k :: 0 <= k < |r| ==> !r[k].Read?
    ensures forall k :: 0 <= k < |r| ==>
      r[k].reg == l.control1 || r[k].reg == l.control2 || r[k].reg == l.control4 || r[k].reg == l.extClkgen
  {
    [ Write(l.control1, b.acksManual | e.dif | b.rstnReset),
      UpdateBits(l.control2, b.dfsl, e.dfsl),
      UpdateBits(l.control4, b.dfsh, e.dfsh),
      Write(l.extClkgen, b.clkEnable | e.clkgen),
      UpdateBits(l.control1, b.rstn, b.rstnNormal) ]
  }

  /** The call digital_mute issues: the SMUTE field of CONTROL2 set from !!mute. */
  function MuteOp(l: Layout, b: Bits, mute: int): (r: Op)
    ensures r.UpdateBits? && r.reg == l.control2 && r.mask == b.smute
    ensures r.val == 0 || r.val == 1
    ensures r.val == 0 <==> mute == 0
  {
    UpdateBits(l.control2, b.smute, if mute != 0 then 1 else 0)
  }

  /** The DAI-format check: 0 exactly when the clocks are not inverted and the
      codec is clock and frame master, -EINVAL otherwise. */
  function CheckDaiFmt(f: FmtBits, format: bv32): (r: int)
    ensures r == 0 || r == -EINVAL
    ensures r == 0 <==> FieldIs(format, f.invMask, f.nbNf) && FieldIs(format, f.masterMask, f.cbmCfm)
  {
    if !FieldIs(format, f.invMask, f.nbNf) then -EINVAL
    else if !FieldIs(format, f.masterMask, f.cbmCfm) then -EINVAL
    else 0
  }

  // ---------------------------------------------------------------- mode lookup

  /** get_mode_reg: linear search of the mode table. */
  method GetModeReg(table: ModeTable, rate: int, width: int) returns (idx: int)
    ensures idx == FirstMatch(table, rate, width)
  {
    var i := 0;
    while i < |table|
      invariant 0 <= i <= |table|
      invariant forall j :: 0 <= j < i ==> !Matches(table[j], rate, width)
    {
      if table[i].rate == rate && table[i].width == width {
        return i;
      }
      i := i + 1;
    }
    return -1;
  }

  lemma RunFromStep(l: Layout, m: RegMap, ops: seq<Op>, io: seq<int>, k: nat)
    requires k < |ops|
    ensures Result(l, ops, io, k) < 0 ==> RunFrom(l, m, ops, io, k) == Run(Result(l, ops, io, k), m, k + 1)
    ensures Result(l, ops, io, k) == 0 ==> RunFrom(l, m, ops, io, k) == RunFrom(l, Apply(m, ops[k]), ops, io, k + 1)
  {}

  lemma SnocPrefix<T>(s: seq<T>, xs: seq<T>, k: nat)
    requires k < |xs|
    ensures s + xs[..k] + [xs[k]] == s + xs[..k + 1]
  {
    assert xs[..k + 1] == xs[..k] + [xs[k]];
  }
}
