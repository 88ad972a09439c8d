/** Kernel-wide constants the drivers rely on: error numbers and the
    digital-audio-interface format word the ASoC framework hands to a codec. */
module Kernel {

  /** Error numbers; the drivers return their negation. */
  const EIO: int := 5
  const EINVAL: int := 22

  /** The bits of a DAI format word that the codec inspects, kept as parameters.
      `Valid` says what the drivers need of them: each value lies inside its
      field's mask, the two fields do not overlap, the bus-format value (I2S)
      lies in neither, and the two clocking roles differ. */
  datatype FmtBits = FmtBits(
    i2s: bv32,
    nbNf: bv32,
    cbmCfm: bv32,
    cbsCfm: bv32,
    invMask: bv32,
    masterMask: bv32)
  {
    predicate Valid() {
      && invMask & masterMask == 0
      && nbNf & !invMask == 0
      && cbmCfm & !masterMask == 0
      && cbsCfm & !masterMask == 0
      && cbmCfm != cbsCfm
      && i2s & (invMask | masterMask) == 0
    }
  }

  /** The field of `format` under `mask` holds `value`. */
  predicate FieldIs(format: bv32, mask: bv32, value: bv32) {
    format & mask == value
  }

  /** The values these names have in the mainline kernel's soc-dai.h. */
  const Mainline: FmtBits := FmtBits(1, 0, 0x1000, 0x2000, 0x0f00, 0xf000)

  lemma MainlineValid()
    ensures Mainline.Valid()
  {}
}
