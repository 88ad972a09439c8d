# AK4490 codec and NS4490 DAC machine driver, modelled in Dafny

This project models two Linux ASoC drivers for the AKM AK4490 digital-to-analogue converter.

- The **codec driver** (`sound/soc/codecs/ak4490.c`) drives the chip through a cached register map. Its parts:
  - a mode lookup over a `(rate, width)` table;
  - register permissions and the register defaults;
  - `set_bias_level`, which writes a reset/clock sequence for STANDBY and OFF;
  - `set_dai_fmt`, which checks a format word;
  - `digital_mute`, a single read-modify-write;
  - `hw_params`, which makes five register calls in a fixed order, holds reset until the last one, and stops at the first error.
- The **machine driver** (`sound/soc/bcm/ns4490-dac.c`) has:
  - its own copy of the mode lookup;
  - the bit-clock ratio it hands the CPU's I2S interface;
  - the DAI format its link declares;
  - the reset-line logic of its probe.

Modules:

- `Kernel` holds error numbers and the DAI format bits. The format bits are kept as parameters, with what the drivers need of them.
- `Ak4490Header` holds what both drivers take from `ak4490.h`:
  - the mode table, an abstract sequence of entries;
  - `FirstMatch`, which specifies the lookup;
  - the register addresses;
  - the register bit fields, with their containment assumptions.
- `Regmap` holds the register map, held as a map from address to byte. It defines:
  - the three kinds of register call;
  - the read-modify-write merge;
  - `Fold`, the map after a prefix of calls have all succeeded.
- `Ak4490` holds:
  - the codec's permission predicates and defaults;
  - what a register call returns;
  - the calls each callback issues;
  - `RunChecked` and `RunAll`, which specify a callback's call sequence with and without stopping at the first error.
- `Ak4490Codec` holds class `Codec`, one codec instance. Its fields are the register map, the log of issued calls and the private `format` and `rate`. Its methods are the callbacks, each proved against those specifications.
- `Ak4490Proofs` holds the properties of those sequences: ordering, final register state, what nothing else touches, and the effect of errors.
- `Ns4490Dac` holds the machine driver:
  - the lookup, `hw_params` and the link format;
  - the probe as written, with class `Machine` for its module state;
  - the probe its checks evidently intend.

Inputs from outside the model are parameters:

- The bus's answer to the k-th register call of a callback is `io[k]`. A missing answer means success.
- A call to a register that is not writeable returns `-EIO`, and the bus is never asked.
- For the machine driver, the returns of card registration, `gpiod_get_index`, `gpiod_direction_output` and `snd_soc_dai_set_bclk_ratio` are inputs. The calls themselves are recorded in a trace.

## Model

| member | source | states |
|---|---|---|
| Ak4490.GetModeReg | sound/soc/codecs/ak4490.c:42-51 | returns the least index whose entry matches `(rate, width)`, or -1 exactly when none does (via `FirstMatch`'s contract, which states both directions and the bound) |
| Ak4490.Defaults | sound/soc/codecs/ak4490.c:53-65 | the initial map holds only registers that can be written; every one but EXT_CLKGEN is readable; EXT_CLKGEN starts at 0x88 |
| Ak4490Proofs.PermissionsNest | sound/soc/codecs/ak4490.c:67-80 | every readable register is writeable, no register is volatile, and EXT_CLKGEN (max_register) is writeable but not readable |
| Ak4490.Readable | sound/soc/codecs/ak4490.c:67-70 | its body encodes `reg <= CONTROL8` |
| Ak4490.Writeable | sound/soc/codecs/ak4490.c:72-75 | its body encodes `reg <= EXT_CLKGEN` |
| Ak4490.Volatile | sound/soc/codecs/ak4490.c:77-80 | its body encodes "no register is volatile" |
| Ak4490.CallResult | sound/soc/codecs/ak4490.c:359-370 | a register call returns 0 or a negative error, and 0 only when the bus answered with success. A write or update outside the writeable range returns -EIO. Any other call passes the bus's error through unchanged, or returns 0 |
| Ak4490.UnwriteableLeavesMap | sound/soc/codecs/ak4490.c:366 | a write or update to a register that is not writeable fails with -EIO and leaves the map as it was |
| Ak4490.BiasOps | sound/soc/codecs/ak4490.c:87-107 | its body encodes the calls per level: STANDBY's write of CONTROL1 with reset asserted, its write of EXT_CLKGEN = CLK_ENABLE and its RSTN update to NORMAL; OFF's RSTN update to RESET and its CLK update to DISABLE. Its contract states that only ON and PREPARE issue nothing, and that every call is a write or update of CONTROL1 or EXT_CLKGEN |
| Ak4490.ParamsOps | sound/soc/codecs/ak4490.c:171-200 | its body encodes hw_params' five calls in order: the CONTROL1 write with reset asserted, the DFSL update of CONTROL2, the DFSH update of CONTROL4, the EXT_CLKGEN write, and the RSTN update of CONTROL1 to NORMAL. Its contract states there are five, none is a read, and they address only those four registers |
| Ak4490.MuteOp | sound/soc/codecs/ak4490.c:139-140 | one update of CONTROL2 under the SMUTE mask, with value `!!mute`: 0 exactly when `mute` is 0, otherwise 1 |
| Ak4490Codec.Codec.constructor | sound/soc/codecs/ak4490.c:359-379 | a fresh instance has the map seeded from the defaults table, an empty log, and zeroed `format` and `rate` |
| Ak4490Codec.Codec.SetBiasLevel | sound/soc/codecs/ak4490.c:82-109 | always returns 0. It issues exactly the level's calls, in order. The new map is each successful call applied and each failed one skipped. `format` and `rate` are unchanged |
| Ak4490Proofs.StandbyBringsUp | sound/soc/codecs/ak4490.c:92-99 | STANDBY with every call succeeding leaves CONTROL1 = ACKS_MANUAL, DIF_I2S32 and RSTN_NORMAL, and EXT_CLKGEN = CLK_ENABLE; no other register changes |
| Ak4490Proofs.StandbyReleasesResetLast | sound/soc/codecs/ak4490.c:93-98 | after STANDBY's first two calls RSTN still reads reset while EXT_CLKGEN already holds CLK_ENABLE |
| Ak4490Proofs.StandbyIgnoresFailures | sound/soc/codecs/ak4490.c:92-99 | whatever the first two STANDBY calls returned, a successful third leaves RSTN normal, and only CONTROL1 and EXT_CLKGEN can change |
| Ak4490Proofs.OffPowersDown | sound/soc/codecs/ak4490.c:101-106 | OFF puts RSTN to reset in CONTROL1 and the CLK field to disabled in EXT_CLKGEN. A call that fails leaves its register alone. Nothing else changes |
| Ak4490Proofs.StandbyThenOff | sound/soc/codecs/ak4490.c:92-106 | STANDBY then OFF, all calls succeeding, leaves CONTROL1 as STANDBY's first write (reset asserted) and EXT_CLKGEN = CLK_DISABLE, and every other register as it was |
| Ak4490.CheckDaiFmt | sound/soc/codecs/ak4490.c:119-130 | 0 if and only if the inversion field is NB_NF and the role field is CBM_CFM; otherwise -EINVAL |
| Ak4490Codec.Codec.SetDaiFmt | sound/soc/codecs/ak4490.c:111-131 | stores the format whether or not it is accepted. It returns the format check's verdict. It makes no register call |
| Ns4490Dac.FormatFields | sound/soc/bcm/ns4490-dac.c:74-75 | a word made of a bus format clear of both fields, an inversion value inside INV_MASK and a role inside MASTER_MASK shows exactly that inversion value and that role through the two masks |
| Ns4490Dac.LinkFormatAccepted | sound/soc/bcm/ns4490-dac.c:74-75 | the link's declared format I2S, NB_NF and CBM_CFM passes the codec's format check |
| Ns4490Dac.SlaveFormatRejected | sound/soc/codecs/ak4490.c:125-128 | the same link with the codec as clock slave (CBS_CFM) is rejected with -EINVAL |
| Ak4490Codec.Codec.DigitalMute | sound/soc/codecs/ak4490.c:133-145 | issues the one SMUTE update of CONTROL2. It returns the call's error or 0, and leaves the map the checked run leaves |
| Ak4490Proofs.MuteTouchesOnlySmute | sound/soc/codecs/ak4490.c:139-144 | on success only CONTROL2's SMUTE bits change, to `!!mute` under the SMUTE mask, and 0 is returned; on failure the error is returned and the map is unchanged |
| Regmap.Merge | sound/soc/codecs/ak4490.c:178-179 | an update stores `val`'s bits under the mask and keeps every other bit (`MergeDetermined` shows that this pins the value down) |
| Ak4490Codec.Codec.HwParams | sound/soc/codecs/ak4490.c:147-211 | stores the rate first. On a lookup miss it returns -EINVAL, with the map and the log unchanged. Otherwise it programs the first matching entry as ProgramMode states. When it returns 0 the request matched an entry, CONTROL1's RSTN field is normal, and EXT_CLKGEN holds `CLK_ENABLE, clkgen` of that entry |
| Ak4490Codec.Codec.ProgramMode | sound/soc/codecs/ak4490.c:171-210 | issues the five calls in order and stops at the first error, which it returns. The map is the checked run's. After the fifth call succeeds it reads EXT_CLKGEN back and returns 0 whatever the read gave |
| Ak4490Proofs.RunCheckedSucceeds | sound/soc/codecs/ak4490.c:171-204 | a checked sequence whose calls all succeed issues them all, returns 0, and leaves the map with every call applied |
| Ak4490Proofs.RunCheckedStopsAtFirstError | sound/soc/codecs/ak4490.c:171-204 | when call k is the first to fail, the checked sequence returns its error having issued k + 1 calls, with the map the first k left |
| Ak4490Proofs.RunFromZero | sound/soc/codecs/ak4490.c:171-204 | a checked run from call k that returns 0 met no failing call from k on |
| Ak4490Proofs.RunCheckedZero | sound/soc/codecs/ak4490.c:171-204 | a checked sequence returns 0 if and only if all of its calls succeed; it then issued them all and left the map with every call applied |
| Ak4490Proofs.RunAllSucceeds | sound/soc/codecs/ak4490.c:92-106 | an unchecked sequence whose calls all succeed leaves the same map as the checked one |
| Ak4490Proofs.ParamsCallsReachBus | sound/soc/codecs/ak4490.c:171-204 | each of hw_params' five calls addresses a writeable register, so it returns exactly the bus's error, or 0 |
| Ak4490Proofs.ParamsSucceed | sound/soc/codecs/ak4490.c:171-210 | with every bus answer a success, hw_params issues all five calls, returns 0 and leaves the map with all five applied |
| Ak4490Proofs.ParamsZero | sound/soc/codecs/ak4490.c:171-210 | hw_params returning 0 means all five bus answers were successes, so the map is the one with all five calls applied |
| Ak4490Proofs.ParamsStopAtFirstError | sound/soc/codecs/ak4490.c:171-204 | if the bus fails call k, the earlier ones having succeeded, hw_params returns that error having issued k + 1 calls, with the map the first k left |
| Ak4490Proofs.ParamsFinalState | sound/soc/codecs/ak4490.c:171-204 | after success CONTROL1 is `ACKS_MANUAL, dif and RSTN_RESET`. Its RSTN field is then replaced by RSTN_NORMAL. CONTROL2 and CONTROL4 differ only in DFSL and DFSH. EXT_CLKGEN = `CLK_ENABLE, clkgen`. Every other register is unchanged |
| Ak4490Proofs.ParamsControl1Steps | sound/soc/codecs/ak4490.c:171-200 | CONTROL1 holds the first write's value through calls 1 to 4, EXT_CLKGEN is set by call 4, and call 5 releases RSTN |
| Ak4490Proofs.ParamsControl1 | sound/soc/codecs/ak4490.c:171-200 | after success CONTROL1's RSTN field is normal and its other bits are those of `ACKS_MANUAL, dif` |
| Ak4490Proofs.ParamsResetHeldUntilLast | sound/soc/codecs/ak4490.c:171-200 | after each of the first four calls RSTN reads reset; by the fifth call EXT_CLKGEN already holds `CLK_ENABLE, clkgen` |
| Ak4490Proofs.ParamsFailureHoldsReset | sound/soc/codecs/ak4490.c:178-204 | a hw_params that fails at any call after the first leaves CONTROL1's RSTN field at reset |
| Ns4490Dac.GetModeReg | sound/soc/bcm/ns4490-dac.c:36-45 | returns exactly `FirstMatch`: the least matching index, or -1 when no entry matches |
| Ns4490Dac.SelectSameEntry | sound/soc/bcm/ns4490-dac.c:36-45 | the codec's and the machine's lookups return the same index for every request. It is -1 if and only if no entry matches, and otherwise a matching entry |
| Ns4490Dac.HwParams | sound/soc/bcm/ns4490-dac.c:47-59 | a miss returns -1 with no call. A hit passes the first matching entry's `bclk_ratio`, in exactly one call, and returns that call's result unchanged |
| Ns4490Dac.Machine.Probe | sound/soc/bcm/ns4490-dac.c:109-132 | the return value and the appended calls are those of `ProbeAsWritten`. The card is registered when registration returned 0. `pdn` holds the looked-up descriptor once registration succeeded |
| Ns4490Dac.Machine.constructor | sound/soc/bcm/ns4490-dac.c:29 | the module starts with no card registered, a NULL `pdn` and no calls |
| Ns4490Dac.ProbeAsWritten | sound/soc/bcm/ns4490-dac.c:109-132 | its body encodes probe as written: the registration error comes first, then -1 for a non-NULL descriptor, then -1 for a 0 from the direction call, and otherwise the pulse and the direction value. Its contract states every trace is a prefix of registration, lookup, direction and the pulse |
| Ns4490Dac.ProbeIntended | sound/soc/bcm/ns4490-dac.c:115-132 | its body encodes the corrected probe: -1 when no line was obtained or the direction call failed, otherwise the pulse and 0. Its contract states the same prefix property |
| Ns4490Dac.ProbeRegistrationFirst | sound/soc/bcm/ns4490-dac.c:109-113 | registration is always the first call; a failed one is the only call and its error is returned |
| Ns4490Dac.ProbeRejectsAcquiredLine | sound/soc/bcm/ns4490-dac.c:115-119 | any non-NULL descriptor, whether a line or an error pointer, gives -1 before any direction or level call |
| Ns4490Dac.ProbeRejectsDirectionSuccess | sound/soc/bcm/ns4490-dac.c:121-125 | a 0 from setting the direction gives -1 before the pulse |
| Ns4490Dac.ProbePulseOrder | sound/soc/bcm/ns4490-dac.c:127-132 | the pulse runs if and only if registration succeeded, the descriptor is NULL and the direction call returned nonzero. It drives the line low then high, as the last two calls, and probe returns that nonzero value |
| Ns4490Dac.ProbeNeverSucceeds | sound/soc/bcm/ns4490-dac.c:109-132 | as written, probe returns a nonzero value for every combination of inputs |
| Ns4490Dac.IntendedSucceedsWhenReady | sound/soc/bcm/ns4490-dac.c:115-132 | the corrected probe returns 0 if and only if registration succeeded, a real line was obtained and its direction was set. The pulse then ends the trace, low before high. On every failure no level call is made |

## Left out

- Module init and exit, I2C and platform driver plumbing, `ak4490_i2c_probe` and `remove`, and the device-id tables. They are registration with the kernel, not driver logic.
- The mixer enums, their text tables and the DAPM widgets and routes (`sound/soc/codecs/ak4490.c:219-321`), along with the static DAI description (rates, formats, channel counts). They are framework data with no behaviour.
- `snd_ns_ns4490_dac_init`, which only returns 0.
- The device-tree phandle parsing, the card `dev` assignment and the rewriting of the DAI link's names in probe (`sound/soc/bcm/ns4490-dac.c:93-107`). They depend on the device tree, which is not modelled; only the registration's result is.
- `printk`, `dev_err` and `mdelay(1)`. The delay has no state to model; its position between the two level calls is all the trace keeps.
- Concurrency. The ASoC core serialises these callbacks.
- `ak4490.h` is not part of this model.
  - The mode table, the register addresses and the bit values are parameters.
  - `Layout.Valid` assumes the addresses rise in the order of the defaults table, with EXT_CLKGEN highest.
  - `Bits.Valid` and `FmtBits.Valid` state the containment assumptions the proofs use.
  - `Kernel.Mainline` records the format-bit values of the mainline `soc-dai.h` and shows those assumptions hold for them.
- Regmap internals.
  - The rbtree cache is a plain map. A register the map does not hold reads as 0.
  - Linux writes the cache before the bus, so after a failed bus write its cache can hold the new value. The model leaves the map unchanged when a call fails.
  - `regmap_update_bits` skips the bus when the value does not change. The model lets every update meet the bus's answer.
- Ak4490Codec.Codec.ProgramMode: the value of the diagnostic read of EXT_CLKGEN is only printed by the driver, so the model records the read in the log and ignores its result.
- Ak4490Proofs.ParamsResetHeldUntilLast: this holds only for entries whose interface-format bits are clear of RSTN (`e.dif & RSTN == 0`). That is an assumption about the table in `ak4490.h`.
- Ak4490Proofs.ParamsFailureHoldsReset: it carries the same assumption about `e.dif`.
- Ak4490.CheckDaiFmt follows the code: the codec must be clock and frame master (CBM_CFM). The commented-out slave variant is not live code.
- Ak4490Codec.Codec.SetBiasLevel follows the code: it ignores every register error and returns 0 rather than giving up at the first failure.
- Ns4490Dac.Machine.Probe models probe as written. The corrected behaviour is the function `ProbeIntended`; no method of the class uses it.

## Findings

| source | as written | input that shows it | evidently intended | confidence | as-written member | corrected member |
|---|---|---|---|---|---|---|
| sound/soc/bcm/ns4490-dac.c:115-132 | probe fails with -1 when `gpiod_get_index` returns a non-NULL descriptor, and again when `gpiod_direction_output` returns 0; the pulse runs only when the descriptor is NULL and the direction call returned nonzero, and that nonzero value is returned | registration returns 0 and `gpiod_get_index` returns a valid line: probe returns -1 with the card left registered and the line never pulsed; with a NULL descriptor and a direction call returning 0 (what the GPIO library returns for NULL), probe again returns -1 | fail when no line was obtained (NULL or an error pointer) or when setting the direction fails; otherwise pulse the line low then high and return 0 | not executed | Ns4490Dac.ProbeNeverSucceeds | Ns4490Dac.IntendedSucceedsWhenReady |
