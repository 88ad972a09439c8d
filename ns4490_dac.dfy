/** The NS4490 machine driver: its own copy of the mode lookup, the
    bit-clock ratio it hands the CPU's I2S interface, the DAI format it
    declares for the link, and the reset-line logic of its probe. Calls into
    the sound core and the GPIO library are recorded in a trace; what they
    return is an input. */
module Ns4490Dac {
  import opened Kernel
  import opened Ak4490Header
  import Ak4490

  /** A call the machine driver makes into code outside the model. */
  datatype Call =
    | RegisterCard
    | GetPdn
    | DirectionOutput(value: int)
    | SetValue(high: bool)
    | SetBclkRatio(ratio: nat)

  // ---------------------------------------------------------------- mode lookup and hw_params

  /** get_mode_reg: the machine driver's copy of the linear search. */
  method GetModeReg(table: ModeTable, rate: int, width: int) returns (idx: int)
    ensures idx == FirstMatch(table, rate, width)
  {
    var i := 0;
    while i < |table|
      invariant 0 <= i <= |table|
      invariant forall j :: 0 <= j < i ==> !Matches(table[j], rate, width)
    {
      if table[i].rate == rate && table[i].width == width {
        return i;
      }
      i := i + 1;
    }
    return -1;
  }

  /** hw_params of the machine: a (rate, width) pair missing from the table
      gives -1 with no call; otherwise the bit-clock ratio of the first
      matching entry is handed to the CPU interface, and what that call
      returns (`bclkResult`) is returned unchanged. */
  method HwParams(table: ModeTable, rate: int, width: int, bclkResult: int) returns (ret: int, calls: seq<Call>)
    ensures FirstMatch(table, rate, width) == -1 ==> ret == -1 && calls == []
    ensures FirstMatch(table, rate, width) != -1 ==>
      && calls == [SetBclkRatio(table[FirstMatch(table, rate, width)].bclkRatio)]
      && ret == bclkResult
    ensures forall k :: 0 <= k < |calls| ==>
      exists i :: 0 <= i < |table| && Matches(table[i], rate, width) && calls[k] == SetBclkRatio(table[i].bclkRatio)
  {
    var i := GetModeReg(table, rate, width);
    if i == -1 {
      return -1, [];
    }
    calls := [SetBclkRatio(table[i].bclkRatio)];
    ret := bclkResult;
  }

  /** The codec and the machine driver look the same request up in the same
      table and always land on the same entry, or both miss. */
  method SelectSameEntry(table: ModeTable, rate: int, width: int) returns (codecIdx: int, machineIdx: int)
    ensures codecIdx == machineIdx
    ensures codecIdx == -1 <==> forall j :: 0 <= j < |table| ==> !Matches(table[j], rate, width)
    ensures 0 <= codecIdx ==> codecIdx < |table| && Matches(table[codecIdx], rate, width)
  {
    codecIdx := Ak4490.GetModeReg(table, rate, width);
    machineIdx := GetModeReg(table, rate, width);
  }

  // ---------------------------------------------------------------- the link's DAI format

  /** Each value in its own field: a word made of a bus format clear of both
      fields, an inversion value inside INV_MASK and a role inside MASTER_MASK
      shows that inversion value and that role through the two masks. */
  lemma InversionField(i2s: bv32, nbNf: bv32, role: bv32, invMask: bv32, masterMask: bv32)
    requires invMask & masterMask == 0
    requires nbNf & !invMask == 0
    requires role & !masterMask == 0
    requires i2s & (invMask | masterMask) == 0
    ensures FieldIs(i2s | nbNf | role, invMask, nbNf)
  {}

  lemma RoleField(i2s: bv32, nbNf: bv32, role: bv32, invMask: bv32, masterMask: bv32)
    requires invMask & masterMask == 0
    requires nbNf & !invMask == 0
    requires role & !masterMask == 0
    requires i2s & (invMask | masterMask) == 0
    ensures FieldIs(i2s | nbNf | role, masterMask, role)
  {}

  lemma FormatFields(i2s: bv32, nbNf: bv32, role: bv32, invMask: bv32, masterMask: bv32)
    requires invMask & masterMask == 0
    requires nbNf & !invMask == 0
    requires role & !masterMask == 0
    requires i2s & (invMask | masterMask) == 0
    ensures FieldIs(i2s | nbNf | role, invMask, nbNf) && FieldIs(i2s | nbNf | role, masterMask, role)
  {
    InversionField(i2s, nbNf, role, invMask, masterMask);
    RoleField(i2s, nbNf, role, invMask, masterMask);
  }

  /** A field holds one value only. */
  lemma FieldUnique(format: bv32, mask: bv32, a: bv32, b: bv32)
    requires FieldIs(format, mask, a) && a != b
    ensures !FieldIs(format, mask, b)
  {}

  /** The codec's format check accepts the format word the DAI link declares:
      I2S, normal clocks, codec clock and frame master. */
  lemma LinkFormatAccepted(f: FmtBits)
    requires f.Valid()
    ensures Ak4490.CheckDaiFmt(f, f.i2s | f.nbNf | f.cbmCfm) == 0
  {
    FormatFields(f.i2s, f.nbNf, f.cbmCfm, f.invMask, f.masterMask);
  }

  /** The same link with the codec as clock slave would be rejected. */
  lemma SlaveFormatRejected(f: FmtBits)
    requires f.Valid()
    ensures Ak4490.CheckDaiFmt(f, f.i2s | f.nbNf | f.cbsCfm) == -EINVAL
  {
    RoleField(f.i2s, f.nbNf, f.cbsCfm, f.invMask, f.masterMask);
    FieldUnique(f.i2s | f.nbNf | f.cbsCfm, f.masterMask, f.cbsCfm, f.cbmCfm);
  }

  // ---------------------------------------------------------------- probe

  /** What gpiod_get_index hands back: no descriptor, a line, or an error
      pointer (which, like a line, is not NULL). */
  datatype Descriptor = Null | Line(id: nat) | ErrPtr(errno: int)

  /** The value probe returns and the calls it made, in order. */
  datatype ProbeRun = ProbeRun(ret: int, calls: seq<Call>)

  /** Probe as written: register the card and return its error; fetch the
      `pdn` line and fail with -1 when the descriptor is not NULL; set the line
      as an output driven high and fail with -1 when that returns 0;
      otherwise pulse the line low then high and return what setting the
      direction returned. */
  function ProbeAsWritten(register: int, lookup: Descriptor, direction: int): (r: ProbeRun)
    ensures r.calls <= [RegisterCard, GetPdn, DirectionOutput(1)] + Pulse()
  {
    if register != 0 then ProbeRun(register, [RegisterCard])
    else if lookup != Null then ProbeRun(-1, [RegisterCard, GetPdn])
    else if direction == 0 then ProbeRun(-1, [RegisterCard, GetPdn, DirectionOutput(1)])
    else ProbeRun(direction, [RegisterCard, GetPdn, DirectionOutput(1), SetValue(false), SetValue(true)])
  }

  /** The probe the checks evidently intend: fail with -1 when no line was
      obtained (NULL or an error pointer) or when setting the direction
      returns an error; otherwise pulse the line low then high and return 0. */
  function ProbeIntended(register: int, lookup: Descriptor, direction: int): (r: ProbeRun)
    ensures r.calls <= [RegisterCard, GetPdn, DirectionOutput(1)] + Pulse()
  {
    if register != 0 then ProbeRun(register, [RegisterCard])
    else if !lookup.Line? then ProbeRun(-1, [RegisterCard, GetPdn])
    else if direction != 0 then ProbeRun(-1, [RegisterCard, GetPdn, DirectionOutput(1)])
    else ProbeRun(0, [RegisterCard, GetPdn, DirectionOutput(1), SetValue(false), SetValue(true)])
  }

  /** The reset pulse: the line driven low, then high. */
  function Pulse(): seq<Call> {
    [SetValue(false), SetValue(true)]
  }

  /** A failed card registration ends probe before any GPIO call, with that
      error. */
  lemma ProbeRegistrationFirst(register: int, lookup: Descriptor, direction: int)
    ensures var run := ProbeAsWritten(register, lookup, direction);
      && |run.calls| >= 1 && run.calls[0] == RegisterCard
      && (register != 0 <==> run.calls == [RegisterCard])
      && (register != 0 ==> run.ret == register)
  {}

  /** A descriptor that is not NULL (a line as much as an error pointer) makes
      probe return -1 before any direction or level call. */
  lemma ProbeRejectsAcquiredLine(lookup: Descriptor, direction: int)
    requires lookup != Null
    ensures ProbeAsWritten(0, lookup, direction) == ProbeRun(-1, [RegisterCard, GetPdn])
  {}

  /** A direction call that returns 0 (success, in the GPIO library's terms)
      makes probe return -1 before the pulse. */
  lemma ProbeRejectsDirectionSuccess()
    ensures ProbeAsWritten(0, Null, 0) == ProbeRun(-1, [RegisterCard, GetPdn, DirectionOutput(1)])
  {}

  /** The pulse runs exactly when registration succeeded, the descriptor is
      NULL and the direction call returned nonzero; it drives the line low and
      then high, last of all, and probe returns that nonzero value. */
  lemma ProbePulseOrder(register: int, lookup: Descriptor, direction: int)
    ensures var run := ProbeAsWritten(register, lookup, direction);
      && (SetValue(false) in run.calls <==> register == 0 && lookup == Null && direction != 0)
      && (SetValue(false) in run.calls ==>
            run.calls == [RegisterCard, GetPdn, DirectionOutput(1)] + Pulse() && run.ret == direction && run.ret != 0)
  {
    var run := ProbeAsWritten(register, lookup, direction);
    if !(register == 0 && lookup == Null && direction != 0) {
      assert run.calls == [RegisterCard] || run.calls == [RegisterCard, GetPdn]
        || run.calls == [RegisterCard, GetPdn, DirectionOutput(1)];
    }
  }

  /** As written, probe never returns 0: every path ends in an error or in
      the value of a direction call that had to be nonzero to get there. */
  lemma ProbeNeverSucceeds(register: int, lookup: Descriptor, direction: int)
    ensures ProbeAsWritten(register, lookup, direction).ret != 0
  {
    if register == 0 && lookup == Null && direction != 0 {
      assert ProbeAsWritten(register, lookup, direction).ret == direction;
    }
  }

  /** The intended probe succeeds exactly when registration succeeded, a line
      was obtained and its direction was set; the pulse is then its last two
      calls, low before high. */
  lemma IntendedSucceedsWhenReady(register: int, lookup: Descriptor, direction: int)
    ensures var run := ProbeIntended(register, lookup, direction);
      && (run.ret == 0 <==> register == 0 && lookup.Line? && direction == 0)
      && (run.ret == 0 ==> run.calls == [RegisterCard, GetPdn, DirectionOutput(1)] + Pulse())
      && (run.ret != 0 ==> !(SetValue(false) in run.calls) && !(SetValue(true) in run.calls))
  {
    var run := ProbeIntended(register, lookup, direction);
    if run.ret != 0 {
      assert run.calls == [RegisterCard] || run.calls == [RegisterCard, GetPdn]
        || run.calls == [RegisterCard, GetPdn, DirectionOutput(1)];
    }
  }

  /** The machine driver's module state: the sound card's registration, the
      `pdn` descriptor kept in a module global, and the calls made so far. */
  class Machine {
    var registered: bool
    var pdn: Descriptor
    var calls: seq<Call>

    constructor ()
      ensures !registered && pdn == Null && calls == []
    {
      registered, pdn, calls := false, Null, [];
    }

    /** probe, as written. `register`, `lookup` and `direction` are what card
        registration, gpiod_get_index and gpiod_direction_output return. */
    method Probe(register: int, lookup: Descriptor, direction: int) returns (ret: int)
      modifies this
      ensures var run := ProbeAsWritten(register, lookup, direction);
        ret == run.ret && calls == old(calls) + run.calls
      ensures registered == (old(registered) || register == 0)
      ensures pdn == if register == 0 then lookup else old(pdn)
    {
      calls := calls + [RegisterCard];
      if register != 0 {
        return register;
      }
      registered := true;

      calls := calls + [GetPdn];
      pdn := lookup;
      if pdn != Null {
        return -1;
      }

      calls := calls + [DirectionOutput(1)];
      ret := direction;
      if ret == 0 {
        return -1;
      }

      calls := calls + [SetValue(false)];
      calls := calls + [SetValue(true)];
      return ret;
    }
  }
}
