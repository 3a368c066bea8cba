/**
 Duty arithmetic of the LED driver: the 13-bit LEDC timer gives duty values
 in [0, 8191]; a single LED maps its 8-bit brightness linearly onto that
 range, and an RGB LED takes each 8-bit colour component out of a packed
 0xRRGGBB word and scales it by component/255 and brightness/255.

 Every duty here is computed exactly on integers and truncated, as the
 source's cast to an unsigned integer truncates.
 */
module Duty {
  import opened LedTypes

  /** `LEDC_TIMER_13_BIT`: the timer resolution in bits. */
  const DUTY_RESOLUTION_BITS: nat := 13

  /** `(1 << LEDC_TIMER_13_BIT) - 1`: the largest duty value. */
  const DUTY_MAX: nat := 0x1FFF

  /** `1 << k` on an unsigned integer. */
  function Pow2(k: nat): (p: nat)
    ensures p >= 1
  {
    if k == 0 then 1 else 2 * Pow2(k - 1)
  }

  /** The largest duty is the largest value the timer's resolution holds. */
  lemma DutyMaxIsFullResolution()
    ensures DUTY_MAX == Pow2(DUTY_RESOLUTION_BITS) - 1
  {
  }

  /** The number that brightness and a colour component are divided by. */
  const BYTE_MAX: nat := 0xFF

  // ---------------------------------------------------------------------
  // Single LED
  // ---------------------------------------------------------------------

  /** The duty `setLED` writes for `brightness`: floor(brightness * 8191 / 255). */
  function LedDuty(brightness: uint8): (duty: nat)
    ensures duty <= DUTY_MAX
    ensures duty * BYTE_MAX <= brightness * DUTY_MAX < (duty + 1) * BYTE_MAX
  {
    brightness * DUTY_MAX / BYTE_MAX
  }

  /** Brightness 0 is off and brightness 255 is the full 13-bit duty. */
  lemma LedDutyEndpoints()
    ensures LedDuty(0) == 0
    ensures LedDuty(255) == DUTY_MAX
  {
  }

  /** A brighter request never gives a smaller duty. */
  lemma LedDutyMonotone(lo: uint8, hi: uint8)
    requires lo <= hi
    ensures LedDuty(lo) <= LedDuty(hi)
  {
  }

  /** The conversion truncates: brightness 128 is 4111.56... and gives 4111. */
  lemma LedDutyTruncates()
    ensures LedDuty(128) == 4111
    ensures 128 * DUTY_MAX * 2 > (2 * 4111 + 1) * BYTE_MAX
  {
  }

  /** brightness * 8191 / 255 is a whole number only at the two ends of the
      range, because 8191 and 255 have no common factor. So for every other
      brightness the exact quotient is at least 1/255 away from an integer,
      which is why a single-precision computation truncates to the same value
      as the exact floor. */
  lemma LedDutyExactOnlyAtEnds(brightness: uint8)
    ensures (brightness * DUTY_MAX) % BYTE_MAX == 0 <==> brightness == 0 || brightness == 255
  {
  }

  // ---------------------------------------------------------------------
  // RGB LED: colour components
  // ---------------------------------------------------------------------

  /** `(color >> 16) & 0xFF`: the red byte is bits 16-23 of the colour. */
  function Red(color: bv32): (red: bv8)
    ensures color & 0xFF_0000 == (red as bv32) << 16
  {
    ((color >> 16) & 0xFF) as bv8
  }

  /** `(color >> 8) & 0xFF`: the green byte is bits 8-15 of the colour. */
  function Green(color: bv32): (green: bv8)
    ensures color & 0xFF00 == (green as bv32) << 8
  {
    ((color >> 8) & 0xFF) as bv8
  }

  /** `color & 0xFF`: the blue byte is bits 0-7 of the colour. */
  function Blue(color: bv32): (blue: bv8)
    ensures color & 0xFF == blue as bv32
  {
    (color & 0xFF) as bv8
  }

  /** The packed 0xRRGGBB word of three components: red in bits 16-23, green
      in bits 8-15, blue in bits 0-7, and nothing above bit 23. */
  function Pack(red: bv8, green: bv8, blue: bv8): (color: bv32)
    ensures color & 0xFF00_0000 == 0
  {
    ((red as bv32) << 16) | ((green as bv32) << 8) | (blue as bv32)
  }

  /** The extraction reads 0xRRGGBB back: unpacking a packed colour gives its
      three components. */
  lemma ComponentsOfPack(red: bv8, green: bv8, blue: bv8)
    ensures Red(Pack(red, green, blue)) == red
    ensures Green(Pack(red, green, blue)) == green
    ensures Blue(Pack(red, green, blue)) == blue
  {
  }

  /** The three components hold the whole of the low 24 bits of a colour. */
  lemma PackOfComponents(color: bv32)
    ensures Pack(Red(color), Green(color), Blue(color)) == color & 0xFF_FFFF
  {
  }

  /** Bits above bit 23 of the colour have no effect on any component. */
  lemma ComponentsIgnoreHighBits(color: bv32, high: bv32)
    ensures Red(color) == Red((color & 0xFF_FFFF) | (high << 24))
    ensures Green(color) == Green((color & 0xFF_FFFF) | (high << 24))
    ensures Blue(color) == Blue((color & 0xFF_FFFF) | (high << 24))
  {
  }

  // ---------------------------------------------------------------------
  // RGB LED: per-channel duty
  // ---------------------------------------------------------------------

  /** The duty `setRGBLED` writes for one colour component at a brightness:
      floor(component/255 * brightness/255 * 8191), computed exactly. */
  function ChannelDuty(component: uint8, brightness: uint8): (duty: nat)
    ensures duty <= DUTY_MAX
    ensures duty * (BYTE_MAX * BYTE_MAX) <= component * brightness * DUTY_MAX
    ensures component * brightness * DUTY_MAX < (duty + 1) * (BYTE_MAX * BYTE_MAX)
  {
    ByteProductBound(component, brightness);
    MulLeMul(component * brightness, BYTE_MAX * BYTE_MAX, DUTY_MAX);
    component * brightness * DUTY_MAX / (BYTE_MAX * BYTE_MAX)
  }

  /** A zero component or a zero brightness switches the channel off. */
  lemma ChannelDutyZero(component: uint8, brightness: uint8)
    requires component == 0 || brightness == 0
    ensures ChannelDuty(component, brightness) == 0
  {
  }

  /** A full component at full brightness is exactly the full duty. */
  lemma ChannelDutyFull()
    ensures ChannelDuty(255, 255) == DUTY_MAX
  {
  }

  /** The channel is off exactly when component * brightness is at most 7:
      very dim colours truncate to zero. */
  lemma ChannelDutyZeroIff(component: uint8, brightness: uint8)
    ensures ChannelDuty(component, brightness) == 0 <==> component * brightness <= 7
  {
  }

  /** The duty never decreases when the component or the brightness grows. */
  lemma ChannelDutyMonotone(c0: uint8, c1: uint8, b0: uint8, b1: uint8)
    requires c0 <= c1 && b0 <= b1
    ensures ChannelDuty(c0, b0) <= ChannelDuty(c1, b1)
  {
    MulLeMul(c0, c1, b0);
    MulLeMul(b0, b1, c1);
    MulLeMul(c0 * b0, c1 * b1, DUTY_MAX);
    DivLeDiv(c0 * b0 * DUTY_MAX, c1 * b1 * DUTY_MAX, BYTE_MAX * BYTE_MAX);
  }

  /** At full brightness an RGB channel gets the same duty a single LED gets
      for the same byte, and a full component gets the single-LED duty of the
      brightness: the two divisions by 255 scale the component and the
      brightness each onto [0, 1], they do not attenuate twice. */
  lemma ChannelDutyMatchesLedDuty(x: uint8)
    ensures ChannelDuty(x, 255) == LedDuty(x)
    ensures ChannelDuty(255, x) == LedDuty(x)
  {
  }

  /** Colour scaling only dims: an RGB channel's duty is at most the
      single-LED duty of its component and of its brightness. */
  lemma ChannelDutyAtMostLedDuty(component: uint8, brightness: uint8)
    ensures ChannelDuty(component, brightness) <= LedDuty(component)
    ensures ChannelDuty(component, brightness) <= LedDuty(brightness)
  {
    ChannelDutyMonotone(component, component, brightness, 255);
    ChannelDutyMonotone(component, 255, brightness, brightness);
    ChannelDutyMatchesLedDuty(component);
    ChannelDutyMatchesLedDuty(brightness);
  }

  /** The three duties of one `setRGBLED` call. */
  datatype RgbDuty = RgbDuty(red: nat, green: nat, blue: nat)

  /** The red, green and blue duties for a packed colour at a brightness. */
  function RgbDuties(color: bv32, brightness: uint8): (duty: RgbDuty)
    ensures duty.red <= DUTY_MAX && duty.green <= DUTY_MAX && duty.blue <= DUTY_MAX
  {
    RgbDuty(
      ChannelDuty(Red(color) as int, brightness),
      ChannelDuty(Green(color) as int, brightness),
      ChannelDuty(Blue(color) as int, brightness))
  }

  /** The duties depend on the low 24 bits of the colour only. */
  lemma RgbDutiesIgnoreHighBits(color: bv32, high: bv32, brightness: uint8)
    ensures RgbDuties(color, brightness) == RgbDuties((color & 0xFF_FFFF) | (high << 24), brightness)
  {
  }

  /** Orange 0xFF8000 at full brightness: red full, green 4111 (128 * 8191 / 255
      truncated), blue off. */
  lemma RgbDutiesOrange()
    ensures RgbDuties(0xFF8000, 255) == RgbDuty(DUTY_MAX, 4111, 0)
  {
  }

  // ---------------------------------------------------------------------
  // Arithmetic helpers
  // ---------------------------------------------------------------------

  lemma ByteProductBound(x: uint8, y: uint8)
    ensures 0 <= x * y <= BYTE_MAX * BYTE_MAX
  {
  }

  lemma MulLeMul(a: nat, b: nat, k: nat)
    requires a <= b
    ensures a * k <= b * k
  {
  }

  lemma DivLeDiv(a: nat, b: nat, d: nat)
    requires a <= b && 0 < d
    ensures a / d <= b / d
  {
    var qa, qb := a / d, b / d;
    assert a == d * qa + a % d && b == d * qb + b % d;
    if qa > qb {
      MulLeMul(qb + 1, qa, d);
      assert false;
    }
  }
}
