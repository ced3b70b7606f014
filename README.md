# AVR ADC driver — Dafny model

A model of a small C driver for the analog-to-digital converter of the
ATmega48A/88A/168A/328P family (`mod_adc.c`, `mod_adc.h`). The driver
configures the converter by read-modify-write updates of four 8-bit
control registers: ADMUX (reference selection, result alignment, input
channel), ADCSRA (enable, start, auto-trigger, completion flag, interrupt
enable, prescaler), ADCSRB (auto-trigger source) and DIDR0 (digital input
disable). `read_adc` starts a conversion, polls the completion flag and
assembles the result from ADCL/ADCH.

The project has these modules:

- `AdcTypes` (`adc_types.dfy`): the header's five enumerations as datatypes.
  Each has its C value (`…Ordinal`), a decoder that inverts it
  (`…FromOrdinal`) and, where the driver writes it to a register, the
  byte it writes (`RefsCode`, `ChannelCode`, `PrescaleCode`, `TriggerCode`).
- `AvrBits` (`avr_bits.dfy`): the bit positions ADLAR, ADEN, ADSC, ADATE,
  ADIF and ADIE, fixed from the datasheet's ADC register description. It
  also has the helpers `BitMask`, `IsSet`, `Bits(x, hi, lo)` (the field
  x[hi:lo]), `AgreeOutside`, `SetBit` and `ClearBit`.
- `AdcOps` (`adc_ops.dfy`): each C function as a transition of a
  register-file value `RegFile`. The bodies use the source's masks. The
  contracts state which bits become what and that every other bit and
  register is unchanged.
- `AdcLaws` (`adc_laws.dfy`): properties that relate several calls:
  idempotence, commutation of the ADMUX setters, the poll consuming the
  flag, the numeric value and width of the result, and the `adc_init`
  example.
- `AdcTrace` (`adc_trace.dfy`): sequences of driver calls. An ownership
  table says which control-bit field each call may write. Lemmas proved by
  induction show that a configuration persists until a call that owns its
  field is made. They also show that no sequence of calls changes the bits
  no field covers (ADMUX[4], ADCSRB[7:3], DIDR0[7:6]) or the result
  registers.
- `AdcDriver` (`adc_driver.dfy`): the driver as it runs. Class `Adc` holds the
  registers as `bv8` fields, and each method performs the C update in
  place. Each method's contract ties the new register state to the
  matching `AdcOps` transition of the old state. `ReadAdc` keeps the
  source's polling loop.

Registers are plain bytes. The converter writes ADCL and ADCH; in the
model they are fields that no method changes. ADIF is cleared by writing
a one to it. The model captures this only as the effect that
`is_conversion_complete` documents: bit 4 becomes 0. On a plain byte, the
source's `ADCSRA |= (1 << ADIF)` would leave the bit at one.

Right-adjusted, `read_adc` returns `(ADCH << 8) | ADCL`. With the
datasheet's register layout, the conversion 0b1011001100 reads back whole,
as 0x2CC (`AdcLaws.ReadScenario`).

## Model

| member | source | states |
|---|---|---|
| AdcTypes.RefOrdinal | mod_adc.h:28 | the C value of a ref_voltage enumerator is below 3 |
| AdcTypes.RefFromOrdinal | mod_adc.h:28 | decoding a C value gives an enumerator exactly for 0..2, and that enumerator has that value |
| AdcTypes.RefsCode | mod_adc.c:13-15 | the REFS1:0 code written for each reference fits in two bits and is never the reserved 0b10 |
| AdcTypes.RefFromCode | mod_adc.c:13-15 | a REFS1:0 code selects a reference exactly when it is 0b00, 0b01 or 0b11, and that reference has that code |
| AdcTypes.RefRoundTrip | mod_adc.h:28 | decoding the C value, or the register code, of a reference gives the reference back |
| AdcTypes.RefsCodeInjective | mod_adc.c:13-15 | the three register codes are pairwise distinct |
| AdcTypes.AlignmentOrdinal | mod_adc.h:31 | LEFT and RIGHT have C values below 2 |
| AdcTypes.AlignmentFromOrdinal | mod_adc.h:31 | decoding gives an alignment exactly for 0 and 1, with that value |
| AdcTypes.AlignmentRoundTrip | mod_adc.h:31 | decoding the C value of an alignment gives it back |
| AdcTypes.ChannelOrdinal | mod_adc.h:34-46 | the 11 channel enumerators have C values 0..10 |
| AdcTypes.ChannelFromOrdinal | mod_adc.h:34-46 | decoding gives a channel exactly for 0..10, with that value |
| AdcTypes.ChannelRoundTrip | mod_adc.h:34-46 | decoding the C value of a channel gives it back; the MUX code written is that C value |
| AdcTypes.ChannelOrdinalInjective | mod_adc.h:34-46 | distinct channels have distinct C values |
| AdcTypes.ChannelCode | mod_adc.c:25 | every channel code fits in four bits, so `& 0b00001111` leaves it unchanged |
| AdcTypes.HasDigitalInput | mod_adc.c:78 | the guard `canal >= ADC0 && canal <= ADC5` holds exactly for the six channels ADC0..ADC5 |
| AdcTypes.HasDigitalInputExactly | mod_adc.c:78 | the guard holds exactly for the channels whose C value is below 6 |
| AdcTypes.PrescaleOrdinal | mod_adc.h:49-57 | prescale C values run from P_2 = 1 to P_128 = 7 |
| AdcTypes.PrescaleFromOrdinal | mod_adc.h:49-57 | decoding gives a prescale exactly for 1..7, with that value |
| AdcTypes.PrescaleRoundTrip | mod_adc.h:49-57 | decoding the C value of a prescale gives it back; the ADPS code written is that C value |
| AdcTypes.PrescaleOrdinalInjective | mod_adc.h:49-57 | the seven prescale codes are distinct |
| AdcTypes.PrescaleCode | mod_adc.c:56 | every prescale code is non-zero and fits in three bits, so `& 0b00000111` leaves it unchanged |
| AdcTypes.TriggerOrdinal | mod_adc.h:60-69 | trigger source C values run 0..7 |
| AdcTypes.TriggerFromOrdinal | mod_adc.h:60-69 | decoding gives a trigger source exactly for 0..7, with that value |
| AdcTypes.TriggerRoundTrip | mod_adc.h:60-69 | decoding the C value of a trigger source gives it back; the ADTS code written is that C value |
| AdcTypes.TriggerOrdinalInjective | mod_adc.h:60-69 | the eight trigger codes are distinct |
| AdcTypes.TriggerCode | mod_adc.c:74 | every trigger code fits in three bits, so `& 0b00000111` leaves it unchanged |
| AvrBits.SetBit | mod_adc.c:20 | OR-ing in `1 << i` sets bit i and changes no other bit |
| AvrBits.ClearBit | mod_adc.c:21 | AND-ing with `~(1 << i)` clears bit i and changes no other bit |
| AdcOps.SetReferenceVoltage | mod_adc.c:11-17 | ADMUX[7:6] becomes the reference's code (0b11, 0b01, 0b00), ADMUX[5:0] is kept, no other register changes |
| AdcOps.SetBitAlignment | mod_adc.c:19-22 | ADLAR is set iff LEFT; no other bit of any register changes |
| AdcOps.SetAnalogChannel | mod_adc.c:24-26 | ADMUX[3:0] becomes the channel's C value, ADMUX[7:4] is kept, no other register changes |
| AdcOps.EnableAdc | mod_adc.c:28-31 | ADEN becomes the argument; nothing else changes |
| AdcOps.StartConversion | mod_adc.c:33-35 | ADSC becomes one; nothing else changes |
| AdcOps.EnableAutoTrigger | mod_adc.c:37-40 | ADATE becomes the argument; nothing else changes |
| AdcOps.IsConversionComplete | mod_adc.c:42-48 | returns whether ADIF is set; if so ADIF is cleared and nothing else changes; otherwise no register changes |
| AdcOps.EnableInterrupt | mod_adc.c:50-53 | ADIE becomes the argument; nothing else changes |
| AdcOps.SetPrescale | mod_adc.c:55-57 | ADCSRA[2:0] becomes the prescale code, ADCSRA[7:3] is kept, no other register changes |
| AdcOps.SetAutoTriggerSource | mod_adc.c:73-75 | ADCSRB[2:0] becomes the trigger code, ADCSRB[7:3] is kept, no other register changes |
| AdcOps.DisableDigitalInput | mod_adc.c:77-82 | for ADC0..ADC5, DIDR0 bit `ordinal` becomes `disable` and no other bit changes; for other channels nothing changes; only DIDR0 is ever written |
| AdcOps.AdcInit | mod_adc.c:3-9 | ADMUX[7:6] = reference code, ADLAR iff LEFT, ADMUX[4] kept, ADMUX[3:0] = channel; ADEN set, ADCSRA[6:3] kept, ADCSRA[2:0] = prescale code; ADCSRB, DIDR0 and the result registers unchanged |
| AdcOps.AssembleResult | mod_adc.c:64-70 | left-adjusted the result is ADCH; right-adjusted `result >> 8` gives ADCH back and `result & 0xFF` gives ADCL |
| AdcLaws.SetReferenceVoltageIdempotent | mod_adc.c:11-17 | calling set_reference_voltage twice with one argument equals calling it once |
| AdcLaws.SetBitAlignmentIdempotent | mod_adc.c:19-22 | set_bit_alignment is idempotent |
| AdcLaws.SetAnalogChannelIdempotent | mod_adc.c:24-26 | set_analog_channel is idempotent |
| AdcLaws.EnableAdcIdempotent | mod_adc.c:28-31 | enable_adc is idempotent |
| AdcLaws.StartConversionIdempotent | mod_adc.c:33-35 | start_conversion is idempotent |
| AdcLaws.EnableAutoTriggerIdempotent | mod_adc.c:37-40 | enable_auto_trigger is idempotent |
| AdcLaws.EnableInterruptIdempotent | mod_adc.c:50-53 | enable_interrupt is idempotent |
| AdcLaws.SetPrescaleIdempotent | mod_adc.c:55-57 | set_prescale is idempotent |
| AdcLaws.SetAutoTriggerSourceIdempotent | mod_adc.c:73-75 | set_auto_trigger_source is idempotent |
| AdcLaws.DisableDigitalInputIdempotent | mod_adc.c:77-82 | disable_digital_input is idempotent |
| AdcLaws.ReferenceCommutesWithAlignment | mod_adc.c:13-21 | set_reference_voltage and set_bit_alignment commute (disjoint ADMUX masks) |
| AdcLaws.ReferenceCommutesWithChannel | mod_adc.c:13-25 | set_reference_voltage and set_analog_channel commute |
| AdcLaws.AlignmentCommutesWithChannel | mod_adc.c:20-25 | set_bit_alignment and set_analog_channel commute |
| AdcLaws.SecondPollFails | mod_adc.c:42-48 | after a poll that reports completion, the next poll reports false and changes nothing |
| AdcLaws.ShiftOrIsValue | mod_adc.c:69 | shifting ADCH left by eight and OR-ing in ADCL gives the value high * 256 + low |
| AdcLaws.AssembleResultValue | mod_adc.c:64-70 | as a number, the result is ADCH when left-adjusted and ADCH * 256 + ADCL when right-adjusted |
| AdcLaws.ResultWidth | mod_adc.h:146-150 | left-adjusted the result is below 256; right-adjusted it is below 1024 when ADCH holds at most two bits |
| AdcLaws.AdcInitExample | mod_adc.c:3-9 | adc_init(AVCC, RIGHT, P_8, ADC2) with ADMUX[4] = 0 gives ADMUX = 0x42, ADEN set and ADPS2:0 = 0b011 |
| AdcLaws.DataRegisters | mod_adc.c:64-70 | the datasheet's placement of a 10-bit conversion in ADCL/ADCH leaves ADCH at most 3 when right-adjusted |
| AdcLaws.ReadOfConversion | mod_adc.c:64-70 | with the registers so filled, the result is the whole conversion when right-adjusted and its top eight bits when left-adjusted |
| AdcLaws.ReadScenario | mod_adc.c:64-70 | the conversion 0b1011001100 reads as 0xB3 left-adjusted and 0x2CC right-adjusted |
| AdcTrace.FieldsDetermineRegisters | mod_adc.c:11-82 | the control-bit fields and the bits outside them together determine the registers, so the ownership table covers every bit |
| AdcTrace.StepFrame | mod_adc.c:3-82 | a call leaves every field it does not own unchanged |
| AdcTrace.StepKeepsUnowned | mod_adc.c:3-82 | no call changes ADMUX[4], ADCSRB[7:3], DIDR0[7:6] or the result registers |
| AdcTrace.RunFrame | mod_adc.c:3-82 | a sequence of calls none of which owns a field leaves that field unchanged |
| AdcTrace.RunKeepsUnowned | mod_adc.c:3-82 | no sequence of calls changes ADMUX[4], ADCSRB[7:3], DIDR0[7:6] or the result registers |
| AdcTrace.ReferencePersists | mod_adc.c:11-17 | after set_reference_voltage(v) and any calls that do not own REFS1:0, ADMUX[7:6] is still v's code |
| AdcTrace.InitAlignmentPersists | mod_adc.c:3-9 | after adc_init and any calls that do not own ADLAR, ADLAR (which read_adc samples) is still set iff LEFT was chosen |
| AdcDriver.Adc.AdcInit | mod_adc.c:3-9 | calls the four setters and enable_adc(true) in order; the new registers are AdcOps.AdcInit of the old |
| AdcDriver.Adc.SetReferenceVoltage | mod_adc.c:11-17 | updates ADMUX in place; the new registers are AdcOps.SetReferenceVoltage of the old |
| AdcDriver.Adc.SetBitAlignment | mod_adc.c:19-22 | the new registers are AdcOps.SetBitAlignment of the old |
| AdcDriver.Adc.SetAnalogChannel | mod_adc.c:24-26 | the new registers are AdcOps.SetAnalogChannel of the old |
| AdcDriver.Adc.EnableAdc | mod_adc.c:28-31 | the new registers are AdcOps.EnableAdc of the old |
| AdcDriver.Adc.StartConversion | mod_adc.c:33-35 | the new registers are AdcOps.StartConversion of the old |
| AdcDriver.Adc.EnableAutoTrigger | mod_adc.c:37-40 | the new registers are AdcOps.EnableAutoTrigger of the old |
| AdcDriver.Adc.IsConversionComplete | mod_adc.c:42-48 | the answer and the new registers are those of AdcOps.IsConversionComplete on the old |
| AdcDriver.Adc.EnableInterrupt | mod_adc.c:50-53 | the new registers are AdcOps.EnableInterrupt of the old |
| AdcDriver.Adc.SetPrescale | mod_adc.c:55-57 | the new registers are AdcOps.SetPrescale of the old |
| AdcDriver.Adc.ReadAdc | mod_adc.c:59-71 | with the flag raised, the loop ends after one poll; the result is assembled from the ADLAR sampled before the start; afterwards ADSC is set and ADIF cleared, nothing else changed |
| AdcDriver.Adc.ReadResult | mod_adc.c:64-70 | reads ADCH alone when left-adjusted, else ADCL then ADCH, and returns AssembleResult of them |
| AdcDriver.Adc.SetAutoTriggerSource | mod_adc.c:73-75 | the new registers are AdcOps.SetAutoTriggerSource of the old |
| AdcDriver.Adc.DisableDigitalInput | mod_adc.c:77-82 | the new registers are AdcOps.DisableDigitalInput of the old |
| AdcDriver.InitThenRead | mod_adc.c:59-71 | a caller of adc_init then read_adc gets ADCH when LEFT was chosen and (ADCH, ADCL) back from the halves of the result when RIGHT was; a poll right after reports false; the registers afterwards are adc_init, start_conversion and the two polls applied to the old ones |

## Left out

- Memory-mapped I/O: the register addresses of `avr/io.h` are replaced by
  the fields of `AdcDriver.Adc`. `avr/io.h` is not part of this model, and
  its bit positions are fixed as constants in `AvrBits`.
- The conversion itself is left out: the converter raising ADIF, clearing
  ADSC when a conversion begins, locking ADCL/ADCH on a low-byte read, and
  conversion timing. ADCL and ADCH are inputs. After `ReadAdc`, ADSC is
  still one in the model.
- AdcDriver.Adc.ReadAdc: requires ADIF to be set on entry, so the first
  poll succeeds. The unbounded spin of `while (!is_conversion_complete());`
  when the flag is never raised is not modelled, because the number of
  polls depends on the hardware.
- On hardware, `|=` and `&=` on ADCSRA in `enable_adc`, `start_conversion`,
  `enable_auto_trigger`, `enable_interrupt` and `set_prescale` also write a
  one back to a pending ADIF, and so clear it. The model treats ADCSRA as a
  plain byte in those operations, so the known gap is stated here and not
  proved: such a call between a start and a poll can lose the completion
  flag.
- `read_adc` is not one of the calls of `AdcTrace.Call`, because its effect
  on the registers depends on when the converter raises the flag.
- The model makes no claim that the channel codes match the hardware's MUX
  selections. FIXED_VOLTAGE = 9 and GND = 10 are written as the code writes
  them; on the ATmega328P the bandgap and ground selections are 0b1110 and
  0b1111.
- Out-of-range enum values (for example the fall-through of the `switch`
  in `set_reference_voltage`) cannot occur, because the enums are datatypes.
- Interrupt handlers and concurrent access to the registers are not
  modelled.
- AdcLaws.ResultWidth: the right-adjusted bound below 1024 is proved only
  when ADCH is at most 3. That bound comes from the converter, not from
  the driver.
