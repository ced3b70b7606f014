/** Properties of the driver's operations that relate several calls, or a
    call and the value it produces. */
module AdcLaws {
  import opened AdcTypes
  import opened AvrBits
  import opened AdcOps

  /* ---------------------------------------------------------------- */
  /* Idempotence: each setter, called twice with the same argument,    */
  /* leaves the registers as one call does                             */
  /* ---------------------------------------------------------------- */

  lemma SetReferenceVoltageIdempotent(r: RegFile, v: RefVoltage)
    ensures SetReferenceVoltage(SetReferenceVoltage(r, v), v) == SetReferenceVoltage(r, v)
  {
  }

  lemma SetBitAlignmentIdempotent(r: RegFile, a: Alignment)
    ensures SetBitAlignment(SetBitAlignment(r, a), a) == SetBitAlignment(r, a)
  {
  }

  lemma SetAnalogChannelIdempotent(r: RegFile, c: Channel)
    ensures SetAnalogChannel(SetAnalogChannel(r, c), c) == SetAnalogChannel(r, c)
  {
  }

  lemma EnableAdcIdempotent(r: RegFile, enable: bool)
    ensures EnableAdc(EnableAdc(r, enable), enable) == EnableAdc(r, enable)
  {
  }

  lemma StartConversionIdempotent(r: RegFile)
    ensures StartConversion(StartConversion(r)) == StartConversion(r)
  {
  }

  lemma EnableAutoTriggerIdempotent(r: RegFile, enable: bool)
    ensures EnableAutoTrigger(EnableAutoTrigger(r, enable), enable) == EnableAutoTrigger(r, enable)
  {
  }

  lemma EnableInterruptIdempotent(r: RegFile, enable: bool)
    ensures EnableInterrupt(EnableInterrupt(r, enable), enable) == EnableInterrupt(r, enable)
  {
  }

  lemma SetPrescaleIdempotent(r: RegFile, p: Prescale)
    ensures SetPrescale(SetPrescale(r, p), p) == SetPrescale(r, p)
  {
  }

  lemma SetAutoTriggerSourceIdempotent(r: RegFile, t: TriggerSource)
    ensures SetAutoTriggerSource(SetAutoTriggerSource(r, t), t) == SetAutoTriggerSource(r, t)
  {
  }

  lemma DisableDigitalInputIdempotent(r: RegFile, c: Channel, disable: bool)
    ensures DisableDigitalInput(DisableDigitalInput(r, c, disable), c, disable)
         == DisableDigitalInput(r, c, disable)
  {
  }

  /* ---------------------------------------------------------------- */
  /* REFS1:0, ADLAR and MUX3:0 are disjoint fields of ADMUX, so the    */
  /* three ADMUX setters commute                                       */
  /* ---------------------------------------------------------------- */

  lemma ReferenceCommutesWithAlignment(r: RegFile, v: RefVoltage, a: Alignment)
    ensures SetReferenceVoltage(SetBitAlignment(r, a), v) == SetBitAlignment(SetReferenceVoltage(r, v), a)
  {
  }

  lemma ReferenceCommutesWithChannel(r: RegFile, v: RefVoltage, c: Channel)
    ensures SetReferenceVoltage(SetAnalogChannel(r, c), v) == SetAnalogChannel(SetReferenceVoltage(r, v), c)
  {
  }

  lemma AlignmentCommutesWithChannel(r: RegFile, a: Alignment, c: Channel)
    ensures SetBitAlignment(SetAnalogChannel(r, c), a) == SetAnalogChannel(SetBitAlignment(r, a), c)
  {
  }

  /** The flag is consumed by the poll that sees it: a second poll right
      after a successful one reports false and changes nothing. */
  lemma SecondPollFails(r: RegFile)
    requires IsConversionComplete(r).0
    ensures !IsConversionComplete(IsConversionComplete(r).1).0
    ensures IsConversionComplete(IsConversionComplete(r).1).1 == IsConversionComplete(r).1
  {
  }

  /** `(high << 8) | low` has value high * 256 + low. */
  lemma ShiftOrIsValue(low: bv8, high: bv8, v: bv16)
    requires v == ((high as bv16) << 8) | low as bv16
    ensures v as int == high as int * 256 + low as int
  {
  }

  /** read_adc's result as a number: ADCH when left-adjusted,
      ADCH * 256 + ADCL when right-adjusted. */
  lemma AssembleResultValue(left: bool, low: bv8, high: bv8)
    ensures left ==> AssembleResult(left, low, high) as int == high as int
    ensures !left ==> AssembleResult(left, low, high) as int == high as int * 256 + low as int
  {
    if !left {
      ShiftOrIsValue(low, high, AssembleResult(left, low, high));
    }
  }

  /** The result fits the width the header documents: left-adjusted it is
      below 256; right-adjusted it is below 1024 whenever ADCH holds at
      most two bits, as the converter leaves it. */
  lemma ResultWidth(left: bool, low: bv8, high: bv8)
    ensures left ==> AssembleResult(left, low, high) < 256
    ensures !left && high <= 3 ==> AssembleResult(left, low, high) < 1024
  {
  }

  /** adc_init(AVCC, RIGHT, P_8, ADC2) on an ADMUX whose reserved bit 4 is
      zero: ADMUX becomes 0b01000010, ADEN is set and ADPS2:0 is 0b011. */
  lemma AdcInitExample(r: RegFile)
    requires !IsSet(r.admux, 4)
    ensures AdcInit(r, Avcc, Right, P8, Adc2).admux == 0x42
    ensures IsSet(AdcInit(r, Avcc, Right, P8, Adc2).adcsra, ADEN)
    ensures Bits(AdcInit(r, Avcc, Right, P8, Adc2).adcsra, 2, 0) == 0x03
  {
  }

  /* ---------------------------------------------------------------- */
  /* The result registers as the converter fills them                  */
  /* ---------------------------------------------------------------- */

  /** Where the converter puts a 10-bit conversion (an assumption taken from
      the datasheet, not part of the driver): left-adjusted, ADCH holds bits
      9..2 and ADCL bits 1..0 at its top; right-adjusted, ADCH holds bits
      9..8 and ADCL bits 7..0. Gives (ADCL, ADCH). */
  function DataRegisters(conversion: bv16, left: bool): (regs: (bv8, bv8))
    requires conversion < 1024
    ensures !left ==> regs.1 <= 3
  {
    if left then ((((conversion & 0x03) << 6) as bv8), (conversion >> 2) as bv8)
    else ((conversion & 0xFF) as bv8, (conversion >> 8) as bv8)
  }

  /** With the registers so filled, read_adc returns the whole conversion
      when right-adjusted and its eight most significant bits when
      left-adjusted. */
  lemma ReadOfConversion(conversion: bv16, left: bool)
    requires conversion < 1024
    ensures var (low, high) := DataRegisters(conversion, left);
      AssembleResult(left, low, high) == if left then conversion >> 2 else conversion
  {
  }

  /** The conversion 0b1011001100 reads as 0b10110011 (0xB3) left-adjusted
      and as 0b1011001100 (0x2CC) right-adjusted. */
  lemma ReadScenario()
    ensures DataRegisters(0x2CC, true) == (0x00, 0xB3)
    ensures AssembleResult(true, 0x00, 0xB3) == 0xB3
    ensures DataRegisters(0x2CC, false) == (0xCC, 0x02)
    ensures AssembleResult(false, 0xCC, 0x02) == 0x2CC
  {
  }
}
