/** Sequences of driver calls and the register bits each call may write.

    The register map of the driver's interface assigns every control bit
    to one field: REFS1:0, ADLAR and MUX3:0 in ADMUX; ADEN, ADSC, ADATE,
    ADIF, ADIE and ADPS2:0 in ADCSRA; ADTS2:0 in ADCSRB; ADC5D..ADC0D in
    DIDR0. `Writes` says which fields a call may change. The lemmas show
    that a call leaves every other field as it was, that no sequence of
    calls ever changes a bit outside these fields (ADMUX[4], ADCSRB[7:3],
    DIDR0[7:6]) or the result registers, and hence that a configuration
    persists until a call that owns the field is made. */
module AdcTrace {
  import opened AdcTypes
  import opened AvrBits
  import Ops = AdcOps

  /** One call of the driver's interface. read_adc is not among them: its
      effect on the registers depends on when the converter raises ADIF. */
  datatype Call =
    | AdcInit(ref: RefVoltage, alin: Alignment, presc: Prescale, ch: Channel)
    | SetReferenceVoltage(v: RefVoltage)
    | SetBitAlignment(a: Alignment)
    | SetAnalogChannel(c: Channel)
    | EnableAdc(enable: bool)
    | StartConversion
    | EnableAutoTrigger(enable: bool)
    | IsConversionComplete
    | EnableInterrupt(enable: bool)
    | SetPrescale(p: Prescale)
    | SetAutoTriggerSource(t: TriggerSource)
    | DisableDigitalInput(canal: Channel, disable: bool)

  /** The registers after one call. */
  function Step(r: Ops.RegFile, call: Call): (next: Ops.RegFile)
  {
    match call
    case AdcInit(ref, alin, presc, ch) => Ops.AdcInit(r, ref, alin, presc, ch)
    case SetReferenceVoltage(v) => Ops.SetReferenceVoltage(r, v)
    case SetBitAlignment(a) => Ops.SetBitAlignment(r, a)
    case SetAnalogChannel(c) => Ops.SetAnalogChannel(r, c)
    case EnableAdc(enable) => Ops.EnableAdc(r, enable)
    case StartConversion => Ops.StartConversion(r)
    case EnableAutoTrigger(enable) => Ops.EnableAutoTrigger(r, enable)
    case IsConversionComplete => Ops.IsConversionComplete(r).1
    case EnableInterrupt(enable) => Ops.EnableInterrupt(r, enable)
    case SetPrescale(p) => Ops.SetPrescale(r, p)
    case SetAutoTriggerSource(t) => Ops.SetAutoTriggerSource(r, t)
    case DisableDigitalInput(canal, disable) => Ops.DisableDigitalInput(r, canal, disable)
  }

  /** The registers after the calls in order. */
  function Run(r: Ops.RegFile, calls: seq<Call>): (final: Ops.RegFile)
    decreases |calls|
  {
    if calls == [] then r else Run(Step(r, calls[0]), calls[1..])
  }

  /** The control-bit fields of the interface. */
  datatype Field = Refs | Adlar | Mux | Aden | Adsc | Adate | Adif | Adie | Adps | Adts | Didr

  /** The bits of the field, in place in their register. */
  function Get(r: Ops.RegFile, f: Field): (bits: bv8)
  {
    match f
    case Refs => r.admux & 0xC0         // ADMUX[7:6]
    case Adlar => r.admux & BitMask(ADLAR)
    case Mux => r.admux & 0x0F          // ADMUX[3:0]
    case Aden => r.adcsra & BitMask(ADEN)
    case Adsc => r.adcsra & BitMask(ADSC)
    case Adate => r.adcsra & BitMask(ADATE)
    case Adif => r.adcsra & BitMask(ADIF)
    case Adie => r.adcsra & BitMask(ADIE)
    case Adps => r.adcsra & 0x07        // ADCSRA[2:0]
    case Adts => r.adcsrb & 0x07        // ADCSRB[2:0]
    case Didr => r.didr0 & 0x3F         // DIDR0[5:0]
  }

  /** The fields a call may write, as the interface assigns them. */
  predicate Writes(call: Call, f: Field)
  {
    match call
    case AdcInit(_, _, _, _) => f in {Refs, Adlar, Adps, Mux, Aden}
    case SetReferenceVoltage(_) => f == Refs
    case SetBitAlignment(_) => f == Adlar
    case SetAnalogChannel(_) => f == Mux
    case EnableAdc(_) => f == Aden
    case StartConversion => f == Adsc
    case EnableAutoTrigger(_) => f == Adate
    case IsConversionComplete => f == Adif
    case EnableInterrupt(_) => f == Adie
    case SetPrescale(_) => f == Adps
    case SetAutoTriggerSource(_) => f == Adts
    case DisableDigitalInput(_, _) => f == Didr
  }

  /** The bits no field covers, and the result registers: the registers
      with every field's bits cleared. */
  function Unowned(r: Ops.RegFile): (u: Ops.RegFile)
  {
    Ops.RegFile(r.admux & 0x10, 0, r.adcsrb & 0xF8, r.didr0 & 0xC0, r.adcl, r.adch)
  }

  /** The fields and the unowned bits together determine the registers. */
  lemma FieldsDetermineRegisters(r: Ops.RegFile, s: Ops.RegFile)
    requires forall f :: Get(r, f) == Get(s, f)
    requires Unowned(r) == Unowned(s)
    ensures r == s
  {
    assert Get(r, Refs) == Get(s, Refs) && Get(r, Adlar) == Get(s, Adlar) && Get(r, Mux) == Get(s, Mux);
    assert Get(r, Aden) == Get(s, Aden) && Get(r, Adsc) == Get(s, Adsc) && Get(r, Adate) == Get(s, Adate);
    assert Get(r, Adif) == Get(s, Adif) && Get(r, Adie) == Get(s, Adie) && Get(r, Adps) == Get(s, Adps);
    assert Get(r, Adts) == Get(s, Adts) && Get(r, Didr) == Get(s, Didr);
  }

  /** A call leaves every field it does not own as it was. */
  lemma StepFrame(r: Ops.RegFile, call: Call, f: Field)
    requires !Writes(call, f)
    ensures Get(Step(r, call), f) == Get(r, f)
  {
    if f in {Refs, Adlar, Mux} {
      AdmuxFrame(r, call, f);
    } else if f in {Aden, Adsc, Adate, Adif, Adie, Adps} {
      AdcsraFrame(r, call, f);
    } else {
      OtherFrame(r, call, f);
    }
  }

  /** StepFrame for the fields of ADMUX. */
  lemma AdmuxFrame(r: Ops.RegFile, call: Call, f: Field)
    requires f in {Refs, Adlar, Mux} && !Writes(call, f)
    ensures Get(Step(r, call), f) == Get(r, f)
  {
    match call
    case AdcInit(_, _, _, _) =>
    case SetReferenceVoltage(_) =>
    case SetBitAlignment(_) =>
    case SetAnalogChannel(_) =>
    case EnableAdc(_) =>
    case StartConversion =>
    case EnableAutoTrigger(_) =>
    case IsConversionComplete =>
    case EnableInterrupt(_) =>
    case SetPrescale(_) =>
    case SetAutoTriggerSource(_) =>
    case DisableDigitalInput(_, _) =>
  }

  /** StepFrame for the fields of ADCSRA. */
  lemma AdcsraFrame(r: Ops.RegFile, call: Call, f: Field)
    requires f in {Aden, Adsc, Adate, Adif, Adie, Adps} && !Writes(call, f)
    ensures Get(Step(r, call), f) == Get(r, f)
  {
    match f
    case Aden =>
    case Adsc =>
    case Adate =>
    case Adif =>
    case Adie =>
    case Adps =>
  }

  /** StepFrame for the fields of ADCSRB and DIDR0. */
  lemma OtherFrame(r: Ops.RegFile, call: Call, f: Field)
    requires f in {Adts, Didr} && !Writes(call, f)
    ensures Get(Step(r, call), f) == Get(r, f)
  {
    match f
    case Adts =>
    case Didr =>
  }

  /** No call changes the unowned bits. */
  lemma StepKeepsUnowned(r: Ops.RegFile, call: Call)
    ensures Unowned(Step(r, call)) == Unowned(r)
  {
    match call
    case AdcInit(_, _, _, _) =>
    case SetReferenceVoltage(_) =>
    case SetBitAlignment(_) =>
    case SetAnalogChannel(_) =>
    case EnableAdc(_) =>
    case StartConversion =>
    case EnableAutoTrigger(_) =>
    case IsConversionComplete =>
    case EnableInterrupt(_) =>
    case SetPrescale(_) =>
    case SetAutoTriggerSource(_) =>
    case DisableDigitalInput(_, _) =>
  }

  /** A sequence of calls none of which owns f leaves f as it was. */
  lemma {:induction false} RunFrame(r: Ops.RegFile, calls: seq<Call>, f: Field)
    requires forall i :: 0 <= i < |calls| ==> !Writes(calls[i], f)
    ensures Get(Run(r, calls), f) == Get(r, f)
    decreases |calls|
  {
    if calls != [] {
      StepFrame(r, calls[0], f);
      RunFrame(Step(r, calls[0]), calls[1..], f);
    }
  }

  /** No sequence of calls changes ADMUX[4], ADCSRB[7:3], DIDR0[7:6] or the
      result registers. */
  lemma {:induction false} RunKeepsUnowned(r: Ops.RegFile, calls: seq<Call>)
    ensures Unowned(Run(r, calls)) == Unowned(r)
    decreases |calls|
  {
    if calls != [] {
      StepKeepsUnowned(r, calls[0]);
      RunKeepsUnowned(Step(r, calls[0]), calls[1..]);
    }
  }

  /** The reference voltage chosen by set_reference_voltage stays selected
      through any later calls that do not own REFS1:0. */
  lemma ReferencePersists(r: Ops.RegFile, v: RefVoltage, later: seq<Call>)
    requires forall i :: 0 <= i < |later| ==> !Writes(later[i], Refs)
    ensures Bits(Run(r, [SetReferenceVoltage(v)] + later).admux, 7, 6) == RefsCode(v)
  {
    var s := Ops.SetReferenceVoltage(r, v);
    assert ([SetReferenceVoltage(v)] + later)[1..] == later;
    RunFrame(s, later, Refs);
  }

  /** The alignment chosen by adc_init stays in ADLAR, where read_adc
      samples it, through any later calls that do not own ADLAR. */
  lemma InitAlignmentPersists(r: Ops.RegFile, ref: RefVoltage, alin: Alignment, presc: Prescale,
                              ch: Channel, later: seq<Call>)
    requires forall i :: 0 <= i < |later| ==> !Writes(later[i], Adlar)
    ensures IsSet(Run(r, [AdcInit(ref, alin, presc, ch)] + later).admux, ADLAR) <==> alin == Left
  {
    var s := Ops.AdcInit(r, ref, alin, presc, ch);
    assert ([AdcInit(ref, alin, presc, ch)] + later)[1..] == later;
    RunFrame(s, later, Adlar);
  }
}
