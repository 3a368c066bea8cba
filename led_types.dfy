/**
 The types of the LED driver's public header: the status code every
 operation returns, the byte and word types of its parameters, and the two
 fixture records that name the PWM channels and GPIO pins of an LED.
 */
module LedTypes {

  /** `esp_err_t`: a status code; ESP_OK (0) is success, anything else is an
      error code passed through unchanged from the peripheral driver. */
  type EspErr = int

  const ESP_OK: EspErr := 0

  /** `uint8_t`: brightness is a value from 0 to 255, and the parameter type
      alone enforces that range. */
  type uint8 = x: int | 0 <= x < 0x100

  /** `ledc_channel_t`: the identifier of one LEDC PWM channel. */
  type ChannelId = nat

  /** `rgb_led_t`: three independent (channel, pin) pairs, one per colour. */
  datatype RgbLed = RgbLed(
    redChannel: ChannelId, redPin: int,
    greenChannel: ChannelId, greenPin: int,
    blueChannel: ChannelId, bluePin: int)

  /** `led_t`: a single (channel, pin) pair. */
  datatype SingleLed = SingleLed(channel: ChannelId, pin: int)
}
