/** The register map the codec is driven through, seen from the driver: the
    last value applied to each 8-bit register, and the calls that change it. */
module Regmap {

  type RegMap = map<nat, bv8>

  /** One call into the register map. */
  datatype Op =
    | Write(reg: nat, val: bv8)
    | UpdateBits(reg: nat, mask: bv8, val: bv8)
    | Read(reg: nat)

  /** The cached value of a register; one that holds no value reads as 0. */
  function Get(m: RegMap, reg: nat): bv8 {
    if reg in m then m[reg] else 0
  }

  /** The value a read-modify-write stores: the bits under `mask` taken from
      `val`, every other bit kept from `cur`. */
  function Merge(cur: bv8, mask: bv8, val: bv8): (r: bv8)
    ensures r & mask == val & mask
    ensures r & !mask == cur & !mask
  {
    (cur & !mask) | (val & mask)
  }

  /** Merge's contract pins its result down completely. */
  lemma MergeDetermined(cur: bv8, mask: bv8, val: bv8, r: bv8)
    requires r & mask == val & mask
    requires r & !mask == cur & !mask
    ensures r == Merge(cur, mask, val)
  {}

  /** The map after `op` has succeeded. */
  function Apply(m: RegMap, op: Op): RegMap {
    match op
    case Write(reg, val) => m[reg := val]
    case UpdateBits(reg, mask, val) => m[reg := Merge(Get(m, reg), mask, val)]
    case Read(_) => m
  }

  /** A call changes no register but the one it addresses. */
  lemma ApplyFrame(m: RegMap, op: Op, reg: nat)
    requires reg != op.reg
    ensures Get(Apply(m, op), reg) == Get(m, reg)
  {}

  /** The map after the first n calls of `ops` have all succeeded, in order. */
  function Fold(m: RegMap, ops: seq<Op>, n: nat): RegMap
    requires n <= |ops|
  {
    if n == 0 then m else Apply(Fold(m, ops, n - 1), ops[n - 1])
  }

  /** A register none of the first n calls addresses keeps its value. */
  lemma {:induction false} FoldFrame(m: RegMap, ops: seq<Op>, n: nat, reg: nat)
    requires n <= |ops|
    requires forall k :: 0 <= k < n ==> ops[k].reg != reg
    ensures Get(Fold(m, ops, n), reg) == Get(m, reg)
  {
    if n > 0 {
      FoldFrame(m, ops, n - 1, reg);
      ApplyFrame(Fold(m, ops, n - 1), ops[n - 1], reg);
    }
  }

  /** The value a register holds after the k-th call, given what it held
      before: a write sets it, an update merges into it, and a call to another
      register leaves it alone. */
  lemma FoldGetWrite(m: RegMap, ops: seq<Op>, k: nat, reg: nat, val: bv8)
    requires k < |ops| && ops[k] == Write(reg, val)
    ensures Get(Fold(m, ops, k + 1), reg) == val
  {}

  lemma FoldGetUpdate(m: RegMap, ops: seq<Op>, k: nat, reg: nat, mask: bv8, val: bv8)
    requires k < |ops| && ops[k] == UpdateBits(reg, mask, val)
    ensures Get(Fold(m, ops, k + 1), reg) == Merge(Get(Fold(m, ops, k), reg), mask, val)
  {}

  lemma FoldGetOther(m: RegMap, ops: seq<Op>, k: nat, reg: nat)
    requires k < |ops| && ops[k].reg != reg
    ensures Get(Fold(m, ops, k + 1), reg) == Get(Fold(m, ops, k), reg)
  {
    ApplyFrame(Fold(m, ops, k), ops[k], reg);
  }
}
