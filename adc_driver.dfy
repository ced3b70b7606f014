/** The driver of mod_adc.c as it runs: one object holds the ADC registers,
    and every operation reads and rewrites them in place.

    Each method performs the source's read-modify-write on the fields and
    is specified by the matching transition of AdcOps, which states the
    effect bit by bit. ADCL and ADCH are written by the converter, never by
    the driver; here they are fields that no method modifies. */
module AdcDriver {
  import opened AdcTypes
  import opened AvrBits
  import Ops = AdcOps

  class Adc {
    var admux: bv8
    var adcsra: bv8
    var adcsrb: bv8
    var didr0: bv8
    var adcl: bv8
    var adch: bv8

    /** The register values, as a value of the pure model. */
    function Regs(): Ops.RegFile
      reads this
    {
      Ops.RegFile(admux, adcsra, adcsrb, didr0, adcl, adch)
    }

    /** A register file holding the given values. */
    constructor (initial: Ops.RegFile)
      ensures Regs() == initial
    {
      admux := initial.admux;
      adcsra := initial.adcsra;
      adcsrb := initial.adcsrb;
      didr0 := initial.didr0;
      adcl := initial.adcl;
      adch := initial.adch;
    }

    method AdcInit(ref: RefVoltage, alin: Alignment, presc: Prescale, ch: Channel)
      modifies this
      ensures Regs() == Ops.AdcInit(old(Regs()), ref, alin, presc, ch)
    {
      SetReferenceVoltage(ref);
      SetBitAlignment(alin);
      SetPrescale(presc);
      SetAnalogChannel(ch);
      EnableAdc(true);
    }

    method SetReferenceVoltage(v: RefVoltage)
      modifies this
      ensures Regs() == Ops.SetReferenceVoltage(old(Regs()), v)
    {
      match v
      case InternalVoltage => admux := (admux & 0x3F) | 0xC0;
      case Avcc => admux := (admux & 0x3F) | 0x40;
      case Aref => admux := admux & 0x3F;
    }

    method SetBitAlignment(a: Alignment)
      modifies this
      ensures Regs() == Ops.SetBitAlignment(old(Regs()), a)
    {
      if a == Left {
        admux := admux | BitMask(ADLAR);
      } else {
        admux := admux & !BitMask(ADLAR);
      }
    }

    method SetAnalogChannel(canal: Channel)
      modifies this
      ensures Regs() == Ops.SetAnalogChannel(old(Regs()), canal)
    {
      admux := (admux & 0xF0) | (ChannelCode(canal) & 0x0F);
    }

    method EnableAdc(enable: bool)
      modifies this
      ensures Regs() == Ops.EnableAdc(old(Regs()), enable)
    {
      if enable {
        adcsra := adcsra | BitMask(ADEN);
      } else {
        adcsra := adcsra & !BitMask(ADEN);
      }
    }

    method StartConversion()
      modifies this
      ensures Regs() == Ops.StartConversion(old(Regs()))
    {
      adcsra := adcsra | BitMask(ADSC);
    }

    method EnableAutoTrigger(enable: bool)
      modifies this
      ensures Regs() == Ops.EnableAutoTrigger(old(Regs()), enable)
    {
      if enable {
        adcsra := adcsra | BitMask(ADATE);
      } else {
        adcsra := adcsra & !BitMask(ADATE);
      }
    }

    /** Tests ADIF and, when set, clears it (the hardware's response to the
        source's write of a one). */
    method IsConversionComplete() returns (complete: bool)
      modifies this
      ensures (complete, Regs()) == Ops.IsConversionComplete(old(Regs()))
    {
      if adcsra & BitMask(ADIF) != 0 {
        adcsra := adcsra & !BitMask(ADIF);
        return true;
      }
      return false;
    }

    method EnableInterrupt(enable: bool)
      modifies this
      ensures Regs() == Ops.EnableInterrupt(old(Regs()), enable)
    {
      if enable {
        adcsra := adcsra | BitMask(ADIE);
      } else {
        adcsra := adcsra & !BitMask(ADIE);
      }
    }

    method SetPrescale(p: Prescale)
      modifies this
      ensures Regs() == Ops.SetPrescale(old(Regs()), p)
    {
      adcsra := (adcsra & 0xF8) | (PrescaleCode(p) & 0x07);
    }

    /** Samples ADLAR, starts a conversion, polls until the conversion is
        reported complete, then assembles the result from ADCH (and ADCL,
        read first, when right-adjusted). The completion flag must already
        be set on entry, before the conversion is started; the converter
        setting it later is not modelled, so the first poll succeeds. */
    method ReadAdc() returns (result: bv16)
      requires IsSet(adcsra, ADIF)
      modifies this
      ensures result == Ops.AssembleResult(IsSet(old(admux), ADLAR), old(adcl), old(adch))
      ensures Regs() == Ops.IsConversionComplete(Ops.StartConversion(old(Regs()))).1
    {
      var isLeftAlignment := admux & BitMask(ADLAR) != 0;
      StartConversion();
      ghost var started := Regs();
      assert IsSet(started.adcsra, ADIF);
      var complete := false;
      while !complete
        invariant !complete ==> Regs() == started
        invariant complete ==> Regs() == Ops.IsConversionComplete(started).1
        decreases !complete
      {
        complete := IsConversionComplete();
      }
      assert isLeftAlignment == IsSet(old(admux), ADLAR) && adcl == old(adcl) && adch == old(adch);
      result := ReadResult(isLeftAlignment);
    }

    /** The tail of read_adc: ADCH alone when left-adjusted; otherwise ADCL
        is read, then ADCH, and the two are joined as `(high << 8) | low`. */
    method ReadResult(isLeftAlignment: bool) returns (result: bv16)
      ensures result == Ops.AssembleResult(isLeftAlignment, adcl, adch)
    {
      if isLeftAlignment {
        result := adch as bv16;
      } else {
        var low := adcl;
        var high := adch;
        result := ((high as bv16) << 8) | low as bv16;
      }
    }

    method SetAutoTriggerSource(s: TriggerSource)
      modifies this
      ensures Regs() == Ops.SetAutoTriggerSource(old(Regs()), s)
    {
      adcsrb := (adcsrb & 0xF8) | (TriggerCode(s) & 0x07);
    }

    method DisableDigitalInput(canal: Channel, disable: bool)
      modifies this
      ensures Regs() == Ops.DisableDigitalInput(old(Regs()), canal, disable)
    {
      if ChannelCode(canal) >= ChannelCode(Adc0) && ChannelCode(canal) <= ChannelCode(Adc5) {
        if disable {
          didr0 := SetBit(didr0, ChannelCode(canal));
        } else {
          didr0 := ClearBit(didr0, ChannelCode(canal));
        }
      }
    }
  }

  /** A client: after adc_init, a read returns ADCH alone exactly when LEFT
      was chosen, and a poll right after the read reports false. The
      registers afterwards are those of adc_init, start_conversion and the
      two polls applied in turn. */
  method InitThenRead(adc: Adc, ref: RefVoltage, alin: Alignment, presc: Prescale, ch: Channel)
    returns (result: bv16, again: bool)
    requires IsSet(adc.adcsra, ADIF)
    modifies adc
    ensures alin == Left ==> result == old(adc.adch) as bv16
    ensures alin == Right ==> result >> 8 == old(adc.adch) as bv16 && result & 0xFF == old(adc.adcl) as bv16
    ensures !again
    ensures adc.Regs()
         == Ops.IsConversionComplete(Ops.IsConversionComplete(Ops.StartConversion(
              Ops.AdcInit(old(adc.Regs()), ref, alin, presc, ch))).1).1
  {
    adc.AdcInit(ref, alin, presc, ch);
    result := adc.ReadAdc();
    again := adc.IsConversionComplete();
  }
}
