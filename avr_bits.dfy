/** Bit positions of the ADC registers (those the driver takes from
    avr/io.h, fixed here as in the ATmega48A/88A/168A/328P datasheet's ADC
    register description) and helpers for reading bit fields of a byte. */
module AvrBits {

  /** ADMUX: left-adjust-result bit. */
  const ADLAR: bv8 := 5

  /** ADCSRA: enable, start conversion, auto-trigger enable, interrupt
      flag, interrupt enable. */
  const ADEN: bv8 := 7
  const ADSC: bv8 := 6
  const ADATE: bv8 := 5
  const ADIF: bv8 := 4
  const ADIE: bv8 := 3

  /** `1 << i` as a byte. */
  function BitMask(i: bv8): (m: bv8)
    requires i < 8
  {
    1 << i
  }

  /** Bit i of x is one. */
  predicate IsSet(x: bv8, i: bv8)
    requires i < 8
  {
    x & BitMask(i) != 0
  }

  /** `x | (1 << i)`: bit i becomes one, no other bit changes. */
  function SetBit(x: bv8, i: bv8): (y: bv8)
    requires i < 8
    ensures IsSet(y, i)
    ensures AgreeOutside(y, x, BitMask(i))
  {
    x | BitMask(i)
  }

  /** `x & ~(1 << i)`: bit i becomes zero, no other bit changes. */
  function ClearBit(x: bv8, i: bv8): (y: bv8)
    requires i < 8
    ensures !IsSet(y, i)
    ensures AgreeOutside(y, x, BitMask(i))
  {
    x & !BitMask(i)
  }

  /** Bits hi..lo of x, shifted down to bit 0 (the datasheet's x[hi:lo]). */
  function Bits(x: bv8, hi: bv8, lo: bv8): (f: bv8)
    requires lo <= hi < 8
  {
    (x >> lo) & ((1 << (hi - lo + 1)) - 1)
  }

  /** x and y agree on every bit outside the mask m. */
  predicate AgreeOutside(x: bv8, y: bv8, m: bv8)
  {
    x & !m == y & !m
  }
}
