/** The operations of mod_adc.c as transitions of a register-file value.

    Each function takes the registers before the call and gives the
    registers after it. Its body reproduces the C read-modify-write with
    the same masks; its contract says which bits become what and that
    everything else stays as it was. The class in AdcDriver performs the
    same updates in place and is specified by these functions.

    Masks are written in hexadecimal; the comment beside each gives the
    binary literal the C source uses. */
module AdcOps {
  import opened AdcTypes
  import opened AvrBits

  /** The four control registers the driver writes and the two result
      registers read_adc reads (the converter writes those). */
  datatype RegFile = RegFile(
    admux: bv8,
    adcsra: bv8,
    adcsrb: bv8,
    didr0: bv8,
    adcl: bv8,
    adch: bv8)

  /* ---------------------------------------------------------------- */
  /* ADMUX                                                             */
  /* ---------------------------------------------------------------- */

  /** set_reference_voltage: REFS1:0 (ADMUX[7:6]) gets the code of v;
      ADMUX[5:0] and every other register are kept. */
  function SetReferenceVoltage(r: RegFile, v: RefVoltage): (s: RegFile)
    ensures Bits(s.admux, 7, 6) == RefsCode(v)
    ensures Bits(s.admux, 5, 0) == Bits(r.admux, 5, 0)
    ensures s == r.(admux := s.admux)
  {
    match v
    case InternalVoltage => r.(admux := (r.admux & 0x3F) | 0xC0)  // 0b00111111, 0b11000000
    case Avcc => r.(admux := (r.admux & 0x3F) | 0x40)             // 0b00111111, 0b01000000
    case Aref => r.(admux := r.admux & 0x3F)                      // 0b00111111
  }

  /** set_bit_alignment: ADLAR is one exactly for LEFT; no other bit of
      any register changes. */
  function SetBitAlignment(r: RegFile, a: Alignment): (s: RegFile)
    ensures IsSet(s.admux, ADLAR) <==> a == Left
    ensures AgreeOutside(s.admux, r.admux, BitMask(ADLAR))
    ensures s == r.(admux := s.admux)
  {
    if a == Left then r.(admux := SetBit(r.admux, ADLAR))
    else r.(admux := ClearBit(r.admux, ADLAR))
  }

  /** set_analog_channel: MUX3:0 (ADMUX[3:0]) gets the channel's C value;
      ADMUX[7:4] and every other register are kept. */
  function SetAnalogChannel(r: RegFile, c: Channel): (s: RegFile)
    ensures Bits(s.admux, 3, 0) == ChannelCode(c)
    ensures Bits(s.admux, 7, 4) == Bits(r.admux, 7, 4)
    ensures s == r.(admux := s.admux)
  {
    r.(admux := (r.admux & 0xF0) | (ChannelCode(c) & 0x0F))  // 0b11110000, 0b00001111
  }

  /* ---------------------------------------------------------------- */
  /* ADCSRA                                                            */
  /* ---------------------------------------------------------------- */

  /** enable_adc: ADEN becomes `enable`; nothing else changes. */
  function EnableAdc(r: RegFile, enable: bool): (s: RegFile)
    ensures IsSet(s.adcsra, ADEN) == enable
    ensures AgreeOutside(s.adcsra, r.adcsra, BitMask(ADEN))
    ensures s == r.(adcsra := s.adcsra)
  {
    if enable then r.(adcsra := SetBit(r.adcsra, ADEN))
    else r.(adcsra := ClearBit(r.adcsra, ADEN))
  }

  /** start_conversion: ADSC becomes one; nothing else changes. (The
      converter clears ADSC itself once the conversion is under way; that
      is not part of this model.) */
  function StartConversion(r: RegFile): (s: RegFile)
    ensures IsSet(s.adcsra, ADSC)
    ensures AgreeOutside(s.adcsra, r.adcsra, BitMask(ADSC))
    ensures s == r.(adcsra := s.adcsra)
  {
    r.(adcsra := SetBit(r.adcsra, ADSC))
  }

  /** enable_auto_trigger: ADATE becomes `enable`; nothing else changes. */
  function EnableAutoTrigger(r: RegFile, enable: bool): (s: RegFile)
    ensures IsSet(s.adcsra, ADATE) == enable
    ensures AgreeOutside(s.adcsra, r.adcsra, BitMask(ADATE))
    ensures s == r.(adcsra := s.adcsra)
  {
    if enable then r.(adcsra := SetBit(r.adcsra, ADATE))
    else r.(adcsra := ClearBit(r.adcsra, ADATE))
  }

  /** is_conversion_complete: reports whether ADIF is set and, when it is,
      clears it and nothing else; when it is not, changes nothing.

      The source writes a one to ADIF (`ADCSRA |= (1 << ADIF)`), which the
      hardware takes as "clear the flag"; the model gives that effect
      directly, since on a plain byte `|=` would leave the bit at one. */
  function IsConversionComplete(r: RegFile): (res: (bool, RegFile))
    ensures res.0 == IsSet(r.adcsra, ADIF)
    ensures res.0 ==> !IsSet(res.1.adcsra, ADIF)
    ensures res.0 ==> AgreeOutside(res.1.adcsra, r.adcsra, BitMask(ADIF))
    ensures res.1 == r.(adcsra := res.1.adcsra)
    ensures !res.0 ==> res.1 == r
  {
    if r.adcsra & BitMask(ADIF) != 0 then (true, r.(adcsra := ClearBit(r.adcsra, ADIF)))
    else (false, r)
  }

  /** enable_interrupt: ADIE becomes `enable`; nothing else changes. */
  function EnableInterrupt(r: RegFile, enable: bool): (s: RegFile)
    ensures IsSet(s.adcsra, ADIE) == enable
    ensures AgreeOutside(s.adcsra, r.adcsra, BitMask(ADIE))
    ensures s == r.(adcsra := s.adcsra)
  {
    if enable then r.(adcsra := SetBit(r.adcsra, ADIE))
    else r.(adcsra := ClearBit(r.adcsra, ADIE))
  }

  /** set_prescale: ADPS2:0 (ADCSRA[2:0]) gets the prescale code;
      ADCSRA[7:3] and every other register are kept. */
  function SetPrescale(r: RegFile, p: Prescale): (s: RegFile)
    ensures Bits(s.adcsra, 2, 0) == PrescaleCode(p)
    ensures Bits(s.adcsra, 7, 3) == Bits(r.adcsra, 7, 3)
    ensures s == r.(adcsra := s.adcsra)
  {
    r.(adcsra := (r.adcsra & 0xF8) | (PrescaleCode(p) & 0x07))  // 0b11111000, 0b00000111
  }

  /* ---------------------------------------------------------------- */
  /* ADCSRB and DIDR0                                                  */
  /* ---------------------------------------------------------------- */

  /** set_auto_trigger_source: ADTS2:0 (ADCSRB[2:0]) gets the trigger
      code; ADCSRB[7:3] and every other register are kept. */
  function SetAutoTriggerSource(r: RegFile, t: TriggerSource): (s: RegFile)
    ensures Bits(s.adcsrb, 2, 0) == TriggerCode(t)
    ensures Bits(s.adcsrb, 7, 3) == Bits(r.adcsrb, 7, 3)
    ensures s == r.(adcsrb := s.adcsrb)
  {
    r.(adcsrb := (r.adcsrb & 0xF8) | (TriggerCode(t) & 0x07))  // 0b11111000, 0b00000111
  }

  /** disable_digital_input: for ADC0 .. ADC5, DIDR0 bit `ordinal` becomes
      `disable` and no other bit changes; for any other channel nothing
      changes. No register but DIDR0 is ever written. */
  function DisableDigitalInput(r: RegFile, c: Channel, disable: bool): (s: RegFile)
    ensures HasDigitalInput(c) ==> IsSet(s.didr0, ChannelCode(c)) == disable
    ensures HasDigitalInput(c) ==> AgreeOutside(s.didr0, r.didr0, BitMask(ChannelCode(c)))
    ensures !HasDigitalInput(c) ==> s == r
    ensures s == r.(didr0 := s.didr0)
  {
    if HasDigitalInput(c) then
      if disable then r.(didr0 := SetBit(r.didr0, ChannelCode(c)))
      else r.(didr0 := ClearBit(r.didr0, ChannelCode(c)))
    else r
  }

  /* ---------------------------------------------------------------- */
  /* adc_init and the result of read_adc                               */
  /* ---------------------------------------------------------------- */

  /** adc_init: the four setters and enable_adc(true), in the source's
      order. Afterwards ADMUX holds the reference code, ADLAR and the
      channel, with ADMUX[4] kept; ADCSRA holds the prescale code with ADEN
      set and ADCSRA[6:3] kept; ADCSRB, DIDR0 and the result registers are
      untouched. */
  function AdcInit(r: RegFile, ref: RefVoltage, alin: Alignment, presc: Prescale, ch: Channel): (s: RegFile)
    ensures Bits(s.admux, 7, 6) == RefsCode(ref)
    ensures IsSet(s.admux, ADLAR) <==> alin == Left
    ensures IsSet(s.admux, 4) == IsSet(r.admux, 4)
    ensures Bits(s.admux, 3, 0) == ChannelCode(ch)
    ensures IsSet(s.adcsra, ADEN)
    ensures Bits(s.adcsra, 6, 3) == Bits(r.adcsra, 6, 3)
    ensures Bits(s.adcsra, 2, 0) == PrescaleCode(presc)
    ensures s == r.(admux := s.admux, adcsra := s.adcsra)
  {
    var r1 := SetReferenceVoltage(r, ref);
    var r2 := SetBitAlignment(r1, alin);
    var r3 := SetPrescale(r2, presc);
    var r4 := SetAnalogChannel(r3, ch);
    InitRefsKept(r1, r2, r4, ref);
    InitAdlarKept(r, r1, r2, r4, alin);
    InitAdcsra(r, r3, r4, EnableAdc(r4, true), presc);
    EnableAdc(r4, true)
  }

  /** The ADMUX part of adc_init: REFS1:0 survives set_bit_alignment and
      set_analog_channel. */
  lemma InitRefsKept(r1: RegFile, r2: RegFile, r4: RegFile, ref: RefVoltage)
    requires Bits(r1.admux, 7, 6) == RefsCode(ref)
    requires AgreeOutside(r2.admux, r1.admux, BitMask(ADLAR))
    requires Bits(r4.admux, 7, 4) == Bits(r2.admux, 7, 4)
    ensures Bits(r4.admux, 7, 6) == RefsCode(ref)
  {
  }

  /** ADLAR and ADMUX[4] survive set_analog_channel; ADMUX[4] also survives
      the two setters before it. */
  lemma InitAdlarKept(r: RegFile, r1: RegFile, r2: RegFile, r4: RegFile, alin: Alignment)
    requires Bits(r1.admux, 5, 0) == Bits(r.admux, 5, 0)
    requires (IsSet(r2.admux, ADLAR) <==> alin == Left) && AgreeOutside(r2.admux, r1.admux, BitMask(ADLAR))
    requires Bits(r4.admux, 7, 4) == Bits(r2.admux, 7, 4)
    ensures IsSet(r4.admux, ADLAR) <==> alin == Left
    ensures IsSet(r4.admux, 4) == IsSet(r.admux, 4)
  {
  }

  /** The ADCSRA part of adc_init: the prescale code survives enable_adc. */
  lemma InitAdcsra(r: RegFile, r3: RegFile, r4: RegFile, r5: RegFile, presc: Prescale)
    requires Bits(r3.adcsra, 2, 0) == PrescaleCode(presc) && Bits(r3.adcsra, 7, 3) == Bits(r.adcsra, 7, 3)
    requires r4.adcsra == r3.adcsra
    requires IsSet(r5.adcsra, ADEN) && AgreeOutside(r5.adcsra, r4.adcsra, BitMask(ADEN))
    ensures Bits(r5.adcsra, 6, 3) == Bits(r.adcsra, 6, 3)
    ensures Bits(r5.adcsra, 2, 0) == PrescaleCode(presc)
  {
  }

  /** The value read_adc returns once the conversion is complete, from the
      ADLAR bit it sampled and the two result bytes: left-adjusted, the
      high byte alone; right-adjusted, high * 256 + low. */
  function AssembleResult(left: bool, low: bv8, high: bv8): (v: bv16)
    ensures left ==> v == high as bv16
    ensures !left ==> v >> 8 == high as bv16 && v & 0xFF == low as bv16
  {
    if left then high as bv16
    else ((high as bv16) << 8) | low as bv16
  }
}
