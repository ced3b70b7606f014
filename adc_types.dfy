/** The enumerations of the ADC driver's header (mod_adc.h).

    Each enumeration is a datatype; its C value (the integer the compiler
    gives the enumerator) is an explicit `Ordinal` function with a decoder
    that inverts it. For the reference voltage, whose C value is not what
    the driver writes, the REFS1:0 register code is a second encoding. */
module AdcTypes {

  datatype Option<T> = None | Some(value: T)

  /* ---------------------------------------------------------------- */
  /* ref_voltage: { INTERNAL_VOLTAGE, AREF, AVCC }                     */
  /* ---------------------------------------------------------------- */

  datatype RefVoltage = InternalVoltage | Aref | Avcc

  /** C value of a ref_voltage enumerator: 0, 1, 2 in declaration order. */
  function RefOrdinal(v: RefVoltage): (n: nat)
    ensures n < 3
  {
    match v
    case InternalVoltage => 0
    case Aref => 1
    case Avcc => 2
  }

  /** The enumerator with C value n, if there is one. */
  function RefFromOrdinal(n: int): (v: Option<RefVoltage>)
    ensures v.Some? <==> 0 <= n < 3
    ensures v.Some? ==> RefOrdinal(v.value) == n
  {
    if n == 0 then Some(InternalVoltage)
    else if n == 1 then Some(Aref)
    else if n == 2 then Some(Avcc)
    else None
  }

  /** The REFS1:0 code that set_reference_voltage writes into ADMUX[7:6]:
      INTERNAL_VOLTAGE = 0b11, AVCC = 0b01, AREF = 0b00. */
  function RefsCode(v: RefVoltage): (code: bv8)
    ensures code <= 0x03
    ensures code != 0x02
  {
    match v
    case InternalVoltage => 0x03
    case Aref => 0x00
    case Avcc => 0x01
  }

  /** The reference voltage selected by a REFS1:0 code; 0b10 (and any value
      wider than two bits) selects none of the three. */
  function RefFromCode(code: bv8): (v: Option<RefVoltage>)
    ensures v.Some? <==> code <= 0x03 && code != 0x02
    ensures v.Some? ==> RefsCode(v.value) == code
  {
    if code == 0x03 then Some(InternalVoltage)
    else if code == 0x01 then Some(Avcc)
    else if code == 0x00 then Some(Aref)
    else None
  }

  lemma RefRoundTrip(v: RefVoltage)
    ensures RefFromOrdinal(RefOrdinal(v)) == Some(v)
    ensures RefFromCode(RefsCode(v)) == Some(v)
  {
  }

  /** The three register codes are pairwise distinct. */
  lemma RefsCodeInjective(v: RefVoltage, w: RefVoltage)
    ensures RefsCode(v) == RefsCode(w) ==> v == w
  {
    RefRoundTrip(v);
    RefRoundTrip(w);
  }

  /* ---------------------------------------------------------------- */
  /* alignment: { LEFT, RIGHT }                                        */
  /* ---------------------------------------------------------------- */

  datatype Alignment = Left | Right

  function AlignmentOrdinal(a: Alignment): (n: nat)
    ensures n < 2
  {
    match a
    case Left => 0
    case Right => 1
  }

  function AlignmentFromOrdinal(n: int): (a: Option<Alignment>)
    ensures a.Some? <==> 0 <= n < 2
    ensures a.Some? ==> AlignmentOrdinal(a.value) == n
  {
    if n == 0 then Some(Left)
    else if n == 1 then Some(Right)
    else None
  }

  lemma AlignmentRoundTrip(a: Alignment)
    ensures AlignmentFromOrdinal(AlignmentOrdinal(a)) == Some(a)
  {
  }

  /* ---------------------------------------------------------------- */
  /* channel: { ADC0 .. ADC7, TEMPERATURE, FIXED_VOLTAGE, GND }        */
  /* ---------------------------------------------------------------- */

  datatype Channel =
    | Adc0 | Adc1 | Adc2 | Adc3 | Adc4 | Adc5 | Adc6 | Adc7
    | Temperature | FixedVoltage | Gnd

  /** C value of a channel enumerator: 0 .. 10 in declaration order. This
      is what set_analog_channel writes into MUX3:0 and what
      disable_digital_input uses as the DIDR0 bit position. */
  function ChannelOrdinal(c: Channel): (n: nat)
    ensures n <= 10
  {
    match c
    case Adc0 => 0
    case Adc1 => 1
    case Adc2 => 2
    case Adc3 => 3
    case Adc4 => 4
    case Adc5 => 5
    case Adc6 => 6
    case Adc7 => 7
    case Temperature => 8
    case FixedVoltage => 9
    case Gnd => 10
  }

  function ChannelFromOrdinal(n: int): (c: Option<Channel>)
    ensures c.Some? <==> 0 <= n <= 10
    ensures c.Some? ==> ChannelOrdinal(c.value) == n
  {
    if n == 0 then Some(Adc0)
    else if n == 1 then Some(Adc1)
    else if n == 2 then Some(Adc2)
    else if n == 3 then Some(Adc3)
    else if n == 4 then Some(Adc4)
    else if n == 5 then Some(Adc5)
    else if n == 6 then Some(Adc6)
    else if n == 7 then Some(Adc7)
    else if n == 8 then Some(Temperature)
    else if n == 9 then Some(FixedVoltage)
    else if n == 10 then Some(Gnd)
    else None
  }

  lemma ChannelRoundTrip(c: Channel)
    ensures ChannelFromOrdinal(ChannelOrdinal(c)) == Some(c)
    ensures ChannelCode(c) as int == ChannelOrdinal(c)
  {
  }

  /** Distinct channels have distinct ordinals. */
  lemma ChannelOrdinalInjective(c: Channel, d: Channel)
    ensures ChannelOrdinal(c) == ChannelOrdinal(d) ==> c == d
  {
    ChannelRoundTrip(c);
    ChannelRoundTrip(d);
  }

  /** The channel's MUX3:0 code: its C value as a byte. Every code fits in
      four bits, so the `& 0b00001111` of set_analog_channel keeps it whole. */
  function ChannelCode(c: Channel): (code: bv8)
    ensures code & 0x0F == code
  {
    match c
    case Adc0 => 0x00
    case Adc1 => 0x01
    case Adc2 => 0x02
    case Adc3 => 0x03
    case Adc4 => 0x04
    case Adc5 => 0x05
    case Adc6 => 0x06
    case Adc7 => 0x07
    case Temperature => 0x08
    case FixedVoltage => 0x09
    case Gnd => 0x0A
  }

  /** The channels that own a DIDR0 bit (ADC5D .. ADC0D): the test
      `canal >= ADC0 && canal <= ADC5` of disable_digital_input. */
  predicate HasDigitalInput(c: Channel)
    ensures HasDigitalInput(c) <==> c in {Adc0, Adc1, Adc2, Adc3, Adc4, Adc5}
  {
    ChannelCode(Adc0) <= ChannelCode(c) <= ChannelCode(Adc5)
  }

  /** The pins that pass that test are those whose C value is below 6. */
  lemma HasDigitalInputExactly(c: Channel)
    ensures HasDigitalInput(c) <==> ChannelOrdinal(c) < 6
  {
  }

  /* ---------------------------------------------------------------- */
  /* prescale: { P_2 = 1, P_4, P_8, P_16, P_32, P_64, P_128 }          */
  /* ---------------------------------------------------------------- */

  datatype Prescale = P2 | P4 | P8 | P16 | P32 | P64 | P128

  /** C value of a prescale enumerator: P_2 = 1, the rest consecutive up
      to P_128 = 7. It is the ADPS2:0 code. */
  function PrescaleOrdinal(p: Prescale): (n: nat)
    ensures 1 <= n <= 7
  {
    match p
    case P2 => 1
    case P4 => 2
    case P8 => 3
    case P16 => 4
    case P32 => 5
    case P64 => 6
    case P128 => 7
  }

  function PrescaleFromOrdinal(n: int): (p: Option<Prescale>)
    ensures p.Some? <==> 1 <= n <= 7
    ensures p.Some? ==> PrescaleOrdinal(p.value) == n
  {
    if n == 1 then Some(P2)
    else if n == 2 then Some(P4)
    else if n == 3 then Some(P8)
    else if n == 4 then Some(P16)
    else if n == 5 then Some(P32)
    else if n == 6 then Some(P64)
    else if n == 7 then Some(P128)
    else None
  }

  lemma PrescaleRoundTrip(p: Prescale)
    ensures PrescaleFromOrdinal(PrescaleOrdinal(p)) == Some(p)
    ensures PrescaleCode(p) as int == PrescaleOrdinal(p)
  {
  }

  lemma PrescaleOrdinalInjective(p: Prescale, q: Prescale)
    ensures PrescaleOrdinal(p) == PrescaleOrdinal(q) ==> p == q
  {
    PrescaleRoundTrip(p);
    PrescaleRoundTrip(q);
  }

  /** The ADPS2:0 code as a byte: non-zero and within three bits, so the
      `& 0b00000111` of set_prescale keeps it whole. */
  function PrescaleCode(p: Prescale): (code: bv8)
    ensures code != 0 && code & 0x07 == code
  {
    match p
    case P2 => 0x01
    case P4 => 0x02
    case P8 => 0x03
    case P16 => 0x04
    case P32 => 0x05
    case P64 => 0x06
    case P128 => 0x07
  }

  /* ---------------------------------------------------------------- */
  /* trigger_source: { FREE_RUNNING .. TIMER1_CAPTURE }                */
  /* ---------------------------------------------------------------- */

  datatype TriggerSource =
    | FreeRunning | AnalogComparator | ExternalInterrupt0 | Timer0CompA
    | Timer0Overflow | Timer1CompB | Timer1Overflow | Timer1Capture

  /** C value of a trigger_source enumerator: 0 .. 7 in declaration order;
      it is the ADTS2:0 code. */
  function TriggerOrdinal(t: TriggerSource): (n: nat)
    ensures n <= 7
  {
    match t
    case FreeRunning => 0
    case AnalogComparator => 1
    case ExternalInterrupt0 => 2
    case Timer0CompA => 3
    case Timer0Overflow => 4
    case Timer1CompB => 5
    case Timer1Overflow => 6
    case Timer1Capture => 7
  }

  function TriggerFromOrdinal(n: int): (t: Option<TriggerSource>)
    ensures t.Some? <==> 0 <= n <= 7
    ensures t.Some? ==> TriggerOrdinal(t.value) == n
  {
    if n == 0 then Some(FreeRunning)
    else if n == 1 then Some(AnalogComparator)
    else if n == 2 then Some(ExternalInterrupt0)
    else if n == 3 then Some(Timer0CompA)
    else if n == 4 then Some(Timer0Overflow)
    else if n == 5 then Some(Timer1CompB)
    else if n == 6 then Some(Timer1Overflow)
    else if n == 7 then Some(Timer1Capture)
    else None
  }

  lemma TriggerRoundTrip(t: TriggerSource)
    ensures TriggerFromOrdinal(TriggerOrdinal(t)) == Some(t)
    ensures TriggerCode(t) as int == TriggerOrdinal(t)
  {
  }

  lemma TriggerOrdinalInjective(t: TriggerSource, u: TriggerSource)
    ensures TriggerOrdinal(t) == TriggerOrdinal(u) ==> t == u
  {
    TriggerRoundTrip(t);
    TriggerRoundTrip(u);
  }

  /** The ADTS2:0 code as a byte; it fits in three bits, so the
      `& 0b00000111` of set_auto_trigger_source keeps it whole. */
  function TriggerCode(t: TriggerSource): (code: bv8)
    ensures code & 0x07 == code
  {
    match t
    case FreeRunning => 0x00
    case AnalogComparator => 0x01
    case ExternalInterrupt0 => 0x02
    case Timer0CompA => 0x03
    case Timer0Overflow => 0x04
    case Timer1CompB => 0x05
    case Timer1Overflow => 0x06
    case Timer1Capture => 0x07
  }
}
