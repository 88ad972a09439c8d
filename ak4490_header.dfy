/** What the two drivers share through ak4490.h: the mode table, the register
    addresses and the register bit fields. The header itself is not part of this
    model, so the table, the addresses and the bit values are parameters, and the
    predicates below state what the drivers assume of them. */
module Ak4490Header {

  /** One row of the mode table: a (rate, width) pair and the register fields
      and bit-clock ratio that realise it. */
  datatype ModeEntry = ModeEntry(
    rate: int,
    width: int,
    dif: bv8,
    dfsl: bv8,
    dfsh: bv8,
    clkgen: bv8,
    bclkRatio: nat)

  type ModeTable = seq<ModeEntry>

  predicate Matches(e: ModeEntry, rate: int, width: int) {
    e.rate == rate && e.width == width
  }

  /** The index both drivers' lookups return: the first entry matching
      (rate, width), or -1 when none does. */
  function FirstMatch(table: ModeTable, rate: int, width: int): (i: int)
    ensures -1 <= i < |table|
    ensures 0 <= i ==> Matches(table[i], rate, width)
    ensures 0 <= i ==> forall j :: 0 <= j < i ==> !Matches(table[j], rate, width)
    ensures i == -1 <==> forall j :: 0 <= j < |table| ==> !Matches(table[j], rate, width)
    decreases |table|
  {
    if table == [] then -1
    else if Matches(table[0], rate, width) then 0
    else
      var k := FirstMatch(table[1..], rate, width);
      if k == -1 then -1 else k + 1
  }

  /** Register addresses, in the order of the register-defaults table;
      EXT_CLKGEN is the highest (it is the regmap's max_register). */
  datatype Layout = Layout(
    control1: nat,
    control2: nat,
    control3: nat,
    attl: nat,
    attr: nat,
    control4: nat,
    control5: nat,
    control6: nat,
    control7: nat,
    control8: nat,
    extClkgen: nat)
  {
    predicate Valid() {
      control1 < control2 < control3 < attl < attr < control4
        < control5 < control6 < control7 < control8 < extClkgen
    }
  }

  /** Register bit fields and the values placed in them. */
  datatype Bits = Bits(
    acksManual: bv8,
    difI2s32: bv8,
    rstn: bv8,
    rstnNormal: bv8,
    rstnReset: bv8,
    clk: bv8,
    clkEnable: bv8,
    clkDisable: bv8,
    dfsl: bv8,
    dfsh: bv8,
    smute: bv8)
  {
    /** The reset values lie in the RSTN field and differ, the clock values lie
        in the CLK field and differ, and the clock-source and interface-format
        bits of CONTROL1 stay clear of RSTN. */
    predicate Valid() {
      && rstnNormal & !rstn == 0
      && rstnReset & !rstn == 0
      && rstnNormal != rstnReset
      && clkEnable & !clk == 0
      && clkDisable & !clk == 0
      && clkEnable != clkDisable
      && acksManual & rstn == 0
      && difI2s32 & rstn == 0
    }
  }
}
